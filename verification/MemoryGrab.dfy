/** Bringing guest memory to the memory device (runtime.go:521-806): by full comparison, and by soft-dirty pages with
    the copy made while the guest runs again. */
module MemoryGrab {
  import opened MemoryImage
  import Chains

  /** One guest write. */
  datatype Store = Store(addr: nat, value: Byte)

  /** The writes the guest makes before each point at which it can run. */
  type Guest = nat -> seq<Store>

  /** What a store puts at address `a`. */
  function StoredAt(a: nat): Store -> Chains.Option<Byte> {
    (st: Store) => if st.addr == a then Chains.Some(st.value) else Chains.None
  }

  predicate StoredTo(stores: seq<Store>, page: nat) {
    exists i :: 0 <= i < |stores| && stores[i].addr / PAGE == page
  }

  ghost predicate Stopped(guest: Guest) {
    forall k :: guest(k) == []
  }

  // ----- the chunks a full comparison finds different -----

  /** How much of the region a block at address `o` takes in. */
  function BlockLength(r: Region, o: nat, blockSize: nat): (n: nat)
    requires r.start <= o < r.end && blockSize > 0
    ensures 0 < n <= blockSize && o + n <= r.end
  {
    if o + blockSize > r.end then r.end - o else blockSize
  }

  /** The chunk of the block at address `o`, if it differs. */
  function Block(prov: seq<Byte>, mem: seq<Byte>, r: Region, o: nat, blockSize: nat): seq<Chunk>
    requires RegionFits(r, |mem|, |prov|) && r.start <= o < r.end && blockSize > 0
  {
    var n := BlockLength(r, o, blockSize);
    var at := r.offset + o - r.start;
    if mem[o..o + n] != prov[at..at + n] then [Chunk(at, n)] else []
  }

  function Chunks(prov: seq<Byte>, mem: seq<Byte>, r: Region, o: nat, blockSize: nat): seq<Chunk>
    requires RegionFits(r, |mem|, |prov|) && r.start <= o && blockSize > 0
    decreases r.end - o
  {
    if o >= r.end then [] else Block(prov, mem, r, o, blockSize) + Chunks(prov, mem, r, o + blockSize, blockSize)
  }

  function AllChunks(prov: seq<Byte>, mem: seq<Byte>, rs: seq<Region>, blockSize: nat): seq<Chunk>
    requires blockSize > 0 && forall i :: 0 <= i < |rs| ==> RegionFits(rs[i], |mem|, |prov|)
    decreases |rs|
  {
    if rs == [] then []
    else
      var k := |rs| - 1;
      AllChunks(prov, mem, rs[..k], blockSize) + Chunks(prov, mem, rs[k], rs[k].start, blockSize)
  }

  /** A byte of a region at which provider and memory differ. */
  ghost predicate Differs(prov: seq<Byte>, mem: seq<Byte>, r: Region, x: nat) {
    RegionFits(r, |mem|, |prov|) && Shows(r, x) && prov[x] != mem[r.start + (x - r.offset)]
  }

  lemma BlockFinds(prov: seq<Byte>, mem: seq<Byte>, r: Region, o: nat, blockSize: nat, x: nat)
    requires RegionFits(r, |mem|, |prov|) && r.start <= o < r.end && blockSize > 0 && Differs(prov, mem, r, x)
    requires r.offset + (o - r.start) <= x < r.offset + (o - r.start) + BlockLength(r, o, blockSize)
    ensures Found(Block(prov, mem, r, o, blockSize), x)
  {
    var n := BlockLength(r, o, blockSize);
    var at := r.offset + o - r.start;
    assert mem[o..o + n][x - at] != prov[at..at + n][x - at];
    assert Within(Chunk(at, n), x);
  }

  lemma BlockHolds(prov: seq<Byte>, mem: seq<Byte>, r: Region, o: nat, blockSize: nat) returns (x: nat)
    requires RegionFits(r, |mem|, |prov|) && r.start <= o < r.end && blockSize > 0
    requires Block(prov, mem, r, o, blockSize) != []
    ensures Differs(prov, mem, r, x) && Within(Block(prov, mem, r, o, blockSize)[0], x)
  {
    var n := BlockLength(r, o, blockSize);
    var at := r.offset + o - r.start;
    var k :| 0 <= k < n && mem[o..o + n][k] != prov[at..at + n][k];
    x := at + k;
  }

  /** Every differing byte lies in a chunk. */
  lemma {:induction false} ChunksFindAll(prov: seq<Byte>, mem: seq<Byte>, r: Region, o: nat, blockSize: nat, x: nat)
    requires RegionFits(r, |mem|, |prov|) && r.start <= o && blockSize > 0
    requires Differs(prov, mem, r, x) && x >= r.offset + (o - r.start)
    ensures Found(Chunks(prov, mem, r, o, blockSize), x)
    decreases r.end - o
  {
    if x < r.offset + (o - r.start) + BlockLength(r, o, blockSize) {
      BlockFinds(prov, mem, r, o, blockSize, x);
    } else {
      ChunksFindAll(prov, mem, r, o + blockSize, blockSize, x);
    }
    FoundInPart(Block(prov, mem, r, o, blockSize), Chunks(prov, mem, r, o + blockSize, blockSize), x);
  }

  /** Every chunk is at most a block and holds a differing byte. */
  lemma {:induction false} ChunksHoldADifference(prov: seq<Byte>, mem: seq<Byte>, r: Region, o: nat, blockSize: nat,
                                                 c: Chunk)
    returns (x: nat)
    requires RegionFits(r, |mem|, |prov|) && r.start <= o && blockSize > 0
    requires c in Chunks(prov, mem, r, o, blockSize)
    ensures c.length <= blockSize && Within(c, x) && Differs(prov, mem, r, x)
    decreases r.end - o
  {
    if c in Chunks(prov, mem, r, o + blockSize, blockSize) {
      x := ChunksHoldADifference(prov, mem, r, o + blockSize, blockSize, c);
    } else {
      assert c in Block(prov, mem, r, o, blockSize);
      x := BlockHolds(prov, mem, r, o, blockSize);
    }
  }

  ghost predicate Found(cs: seq<Chunk>, x: nat) {
    exists c :: c in cs && Within(c, x)
  }

  ghost predicate Justified(c: Chunk, prov: seq<Byte>, mem: seq<Byte>, rs: seq<Region>) {
    exists i, x: nat :: 0 <= i < |rs| && Within(c, x) && Differs(prov, mem, rs[i], x)
  }

  lemma FoundInPart(a: seq<Chunk>, b: seq<Chunk>, x: nat)
    requires Found(a, x) || Found(b, x)
    ensures Found(a + b, x)
  {
    if Found(a, x) {
      var c :| c in a && Within(c, x);
      assert c in a + b;
    } else {
      var c :| c in b && Within(c, x);
      assert c in a + b;
    }
  }

  lemma JustifiedByPart(c: Chunk, prov: seq<Byte>, mem: seq<Byte>, rs: seq<Region>)
    requires rs != [] && Justified(c, prov, mem, rs[..|rs| - 1])
    ensures Justified(c, prov, mem, rs)
  {
    var i, x: nat :| 0 <= i < |rs| - 1 && Within(c, x) && Differs(prov, mem, rs[..|rs| - 1][i], x);
    assert Differs(prov, mem, rs[i], x);
  }

  /** The full comparison finds a chunk for every differing byte of every region, and every chunk it finds holds one. */
  lemma {:induction false} AllChunksAreExact(prov: seq<Byte>, mem: seq<Byte>, rs: seq<Region>, blockSize: nat)
    requires blockSize > 0 && forall i :: 0 <= i < |rs| ==> RegionFits(rs[i], |mem|, |prov|)
    ensures forall i, x: nat | 0 <= i < |rs| && Differs(prov, mem, rs[i], x) ::
              Found(AllChunks(prov, mem, rs, blockSize), x)
    ensures forall c | c in AllChunks(prov, mem, rs, blockSize) :: Justified(c, prov, mem, rs)
    decreases |rs|
  {
    if rs != [] {
      var k := |rs| - 1;
      var front, last := AllChunks(prov, mem, rs[..k], blockSize), Chunks(prov, mem, rs[k], rs[k].start, blockSize);
      AllChunksAreExact(prov, mem, rs[..k], blockSize);
      forall i, x: nat | 0 <= i < |rs| && Differs(prov, mem, rs[i], x) ensures Found(front + last, x) {
        if i < k {
          assert Differs(prov, mem, rs[..k][i], x);
        } else {
          ChunksFindAll(prov, mem, rs[k], rs[k].start, blockSize, x);
        }
        FoundInPart(front, last, x);
      }
      forall c | c in front + last ensures Justified(c, prov, mem, rs) {
        if c in front {
          JustifiedByPart(c, prov, mem, rs);
        } else {
          var x := ChunksHoldADifference(prov, mem, rs[k], rs[k].start, blockSize, c);
        }
      }
    }
  }

  /** Only the region's own stretch of the provider matters. */
  lemma {:induction false} ChunksAgree(p: seq<Byte>, q: seq<Byte>, mem: seq<Byte>, r: Region, o: nat, blockSize: nat)
    requires |p| == |q| && RegionFits(r, |mem|, |p|) && r.start <= o && blockSize > 0
    requires forall x :: r.offset <= x < r.offset + (r.end - r.start) ==> p[x] == q[x]
    ensures Chunks(p, mem, r, o, blockSize) == Chunks(q, mem, r, o, blockSize)
    decreases r.end - o
  {
    if o < r.end {
      BlocksAgree(p, q, mem, r, o, blockSize);
      ChunksAgree(p, q, mem, r, o + blockSize, blockSize);
    }
  }

  lemma BlocksAgree(p: seq<Byte>, q: seq<Byte>, mem: seq<Byte>, r: Region, o: nat, blockSize: nat)
    requires |p| == |q| && RegionFits(r, |mem|, |p|) && r.start <= o < r.end && blockSize > 0
    requires forall x :: r.offset <= x < r.offset + (r.end - r.start) ==> p[x] == q[x]
    ensures Block(p, mem, r, o, blockSize) == Block(q, mem, r, o, blockSize)
  {
    var n := BlockLength(r, o, blockSize);
    var at := r.offset + o - r.start;
    assert p[at..at + n] == q[at..at + n];
  }

  // ----- the grabber -----

  /** Where the comparison of a region stands: the provider, the trackers, the next address, the chunks marked. */
  datatype Stage = Stage(prov: seq<Byte>, trackers: Trackers, address: nat, marks: seq<Chunk>)

  class MemoryGrabber {
    const regions: seq<Region>
    const updateDirty: bool
    const updateMemory: bool
    const mem: array<Byte>
    const prov: array<Byte>
    var softPages: set<nat>
    var trackers: Trackers

    ghost predicate Valid()
      reads this
    {
      && mem != prov
      && Mapped(regions, mem.Length, prov.Length)
      && TrackersFit(trackers)
    }

    /** MarkDirty on every tracker that is set. */
    method MarkDirty(c: Chunk)
      requires Valid()
      modifies this`trackers
      ensures Valid()
      ensures trackers == MarkEach(old(trackers), [c])
    {
      trackers := Trackers(Mark(trackers.direct, c), Mark(trackers.sync, c), Mark(trackers.writeback, c));
      MarkOne(old(trackers), c);
    }

    static method ReadAt(from: array<Byte>, buffer: array<Byte>, n: nat, at: nat)
      requires from != buffer && n <= buffer.Length && at + n <= from.Length
      modifies buffer
      ensures buffer[..n] == from[at..at + n]
    {
      forall i | 0 <= i < n {
        buffer[i] := from[at + i];
      }
    }

    static method WriteAt(to: array<Byte>, buffer: array<Byte>, n: nat, at: nat)
      requires to != buffer && n <= buffer.Length && at + n <= to.Length
      modifies to
      ensures to[..] == old(to[..])[..at] + buffer[..n] + old(to[..])[at + n..]
    {
      forall i | 0 <= i < n {
        to[at + i] := buffer[i];
      }
    }

    // ----- full comparison -----

    /** One block: compare, mark, copy (lines 613-650). */
    method CompareBlock(buffer: array<Byte>, provBuffer: array<Byte>, n: nat, o: nat, at: nat)
      returns (ghost marks: seq<Chunk>)
      requires Valid() && o + n <= mem.Length && at + n <= prov.Length
      requires n <= buffer.Length && n <= provBuffer.Length
      requires buffer != provBuffer && buffer != mem && buffer != prov && provBuffer != mem && provBuffer != prov
      modifies buffer, provBuffer, prov, this`trackers
      ensures Valid()
      ensures prov[..] ==
              if updateMemory then old(prov[..])[..at] + mem[o..o + n] + old(prov[..])[at + n..] else old(prov[..])
      ensures marks == if updateDirty && mem[o..o + n] != old(prov[at..at + n]) then [Chunk(at, n)] else []
      ensures trackers == MarkEach(old(trackers), marks)
    {
      marks := [];
      MarkNone(trackers);
      ReadAt(mem, buffer, n, o);
      ReadAt(prov, provBuffer, n, at);
      if buffer[..n] != provBuffer[..n] {
        if updateDirty {
          MarkDirty(Chunk(at, n));
          marks := [Chunk(at, n)];
        }
        if updateMemory {
          WriteAt(prov, buffer, n, at);
        }
      } else {
        assert prov[..] == prov[..][..at] + mem[o..o + n] + prov[..][at + n..];
      }
    }

    /** One region, in blocks (lines 609-652). */
    method CompareRegion(r: Region, blockSize: nat) returns (ghost marks: seq<Chunk>)
      requires Valid() && RegionFits(r, mem.Length, prov.Length) && blockSize > 0
      modifies prov, this`trackers
      ensures Valid()
      ensures prov[..] == if updateMemory then Splice(old(prov[..]), mem[..], r) else old(prov[..])
      ensures marks == if updateDirty then Chunks(old(prov[..]), mem[..], r, r.start, blockSize) else []
      ensures trackers == MarkEach(old(trackers), marks)
    {
      var buffer := new Byte[blockSize];
      var provBuffer := new Byte[blockSize];
      ghost var start, memory := Stage(prov[..], trackers, r.start, []), mem[..];
      ghost var reached := Reached(start, memory, r, blockSize);
      StartIsReached(start, memory, r, blockSize);
      ReachedIsClosed(start, memory, r, blockSize);
      ghost var end := CompareBlocks(buffer, provBuffer, r, memory, reached);
      EndIsWhole(start, end, memory, r, blockSize);
      marks := end.marks;
    }

    /** The loop over its blocks, for any set of stages that each block leads on in. */
    method CompareBlocks(buffer: array<Byte>, provBuffer: array<Byte>, r: Region, ghost memory: seq<Byte>,
                         ghost reached: Stage -> bool)
      returns (ghost end: Stage)
      requires Valid() && RegionFits(r, mem.Length, prov.Length) && memory == mem[..]
      requires buffer.Length == provBuffer.Length > 0
      requires buffer != provBuffer && buffer != mem && buffer != prov && provBuffer != mem && provBuffer != prov
      requires Closed(reached, memory, r, buffer.Length) && reached(Stage(prov[..], trackers, r.start, []))
      modifies buffer, provBuffer, prov, this`trackers
      ensures Valid() && reached(end)
      ensures end.prov == prov[..] && end.trackers == trackers && r.end <= end.address
    {
      var o, blockSize := r.start, buffer.Length;
      end := Stage(prov[..], trackers, o, []);
      while o < r.end
        invariant Valid() && reached(end)
        invariant end.prov == prov[..] && end.trackers == trackers && r.start <= o == end.address
        decreases r.end - o
      {
        var readSize := if o + blockSize > r.end then r.end - o else blockSize;
        ghost var found;
        end, found := CompareStep(buffer, provBuffer, r, o, readSize, memory, end);
        o := o + blockSize;
      }
    }

    /** One more block leads from a stage in the set to another one. */
    ghost predicate Closed(reached: Stage -> bool, memory: seq<Byte>, r: Region, blockSize: nat) {
      forall a, b, found | reached(a) && BlockDone(memory, a, b, found, r, blockSize) :: reached(b)
    }

    ghost predicate BlockDone(memory: seq<Byte>, a: Stage, b: Stage, found: seq<Chunk>, r: Region, blockSize: nat) {
      && blockSize > 0 && r.start <= a.address < r.end && TrackersFit(a.trackers)
      && b.address == a.address + blockSize && b.marks == a.marks + found && b.trackers == MarkEach(a.trackers, found)
      && var at, n := r.offset + a.address - r.start, BlockLength(r, a.address, blockSize);
      && BlockCopied(memory, a.prov, b.prov, at, a.address, n) && BlockFound(memory, a.prov, found, at, a.address, n)
    }

    ghost predicate BlockCopied(memory: seq<Byte>, p: seq<Byte>, q: seq<Byte>, at: int, o: nat, n: nat) {
      && 0 <= at && at + n <= |p| && o + n <= |memory|
      && q == if updateMemory then p[..at] + memory[o..o + n] + p[at + n..] else p
    }

    ghost predicate BlockFound(memory: seq<Byte>, p: seq<Byte>, found: seq<Chunk>, at: int, o: nat, n: nat) {
      && 0 <= at && at + n <= |p| && o + n <= |memory|
      && found == if updateDirty && memory[o..o + n] != p[at..at + n] then [Chunk(at, n)] else []
    }

    /** One round of that loop, from address `o`. */
    method CompareStep(buffer: array<Byte>, provBuffer: array<Byte>, r: Region, o: nat, n: nat, ghost memory: seq<Byte>,
                       ghost a: Stage)
      returns (ghost b: Stage, ghost found: seq<Chunk>)
      requires Valid() && RegionFits(r, mem.Length, prov.Length) && r.start <= o < r.end && memory == mem[..]
      requires buffer.Length == provBuffer.Length > 0 && n == BlockLength(r, o, buffer.Length)
      requires buffer != provBuffer && buffer != mem && buffer != prov && provBuffer != mem && provBuffer != prov
      requires a.prov == prov[..] && a.trackers == trackers && a.address == o
      modifies buffer, provBuffer, prov, this`trackers
      ensures Valid() && b.prov == prov[..] && b.trackers == trackers
      ensures BlockDone(memory, a, b, found, r, buffer.Length)
    {
      var at := r.offset + o - r.start;
      assert memory[o..o + n] == mem[o..o + n] && a.prov[at..at + n] == prov[at..at + n];
      found := CompareBlock(buffer, provBuffer, n, o, at);
      b := Stage(prov[..], trackers, o + buffer.Length, a.marks + found);
    }

    /** The stages of a region's comparison from `start` on. */
    ghost function Reached(start: Stage, memory: seq<Byte>, r: Region, blockSize: nat): Stage -> bool {
      (a: Stage) => Progress(start, a, memory, r, blockSize)
    }

    /** What the loop has done at stage `a`. */
    ghost predicate Progress(start: Stage, a: Stage, memory: seq<Byte>, r: Region, blockSize: nat) {
      && RegionFits(r, |memory|, |start.prov|) && r.start <= a.address && blockSize > 0
      && a.prov == Upto(start.prov, memory, r, a.address)
      && MarksDone(start.prov, memory, r, a.address, blockSize, a.marks) && TrackersDone(start, a)
    }

    ghost predicate TrackersDone(start: Stage, a: Stage) {
      TrackersFit(start.trackers) && a.trackers == MarkEach(start.trackers, a.marks)
    }

    ghost predicate MarksDone(before: seq<Byte>, memory: seq<Byte>, r: Region, o: nat, blockSize: nat,
                              marks: seq<Chunk>)
      requires RegionFits(r, |memory|, |before|) && r.start <= o && blockSize > 0
    {
      marks + Pending(before, memory, r, o, blockSize) == Pending(before, memory, r, r.start, blockSize)
    }

    lemma StartIsReached(start: Stage, memory: seq<Byte>, r: Region, blockSize: nat)
      requires RegionFits(r, |memory|, |start.prov|) && blockSize > 0 && TrackersFit(start.trackers)
      requires start.address == r.start && start.marks == []
      ensures Progress(start, start, memory, r, blockSize)
    {
      MarkNone(start.trackers);
      assert start.prov == Upto(start.prov, memory, r, r.start);
      var all := Pending(start.prov, memory, r, r.start, blockSize);
      assert [] + all == all;
    }

    lemma EndIsWhole(start: Stage, end: Stage, memory: seq<Byte>, r: Region, blockSize: nat)
      requires Progress(start, end, memory, r, blockSize) && r.end <= end.address
      ensures end.prov == if updateMemory then Splice(start.prov, memory, r) else start.prov
      ensures end.marks == if updateDirty then Chunks(start.prov, memory, r, r.start, blockSize) else []
      ensures end.trackers == MarkEach(start.trackers, end.marks)
    {
      assert Cut(r, end.address) == r;
      assert Pending(start.prov, memory, r, end.address, blockSize) == [];
      assert end.marks + [] == end.marks;
    }

    lemma ReachedIsClosed(start: Stage, memory: seq<Byte>, r: Region, blockSize: nat)
      ensures Closed(Reached(start, memory, r, blockSize), memory, r, blockSize)
    {
      var reached := Reached(start, memory, r, blockSize);
      forall a, b, found | reached(a) && BlockDone(memory, a, b, found, r, blockSize) ensures reached(b) {
        BlockCounts(start, a, b, found, memory, r, blockSize);
      }
    }

    /** What CompareBlock did, in terms of the whole region. */
    lemma BlockCounts(start: Stage, a: Stage, b: Stage, found: seq<Chunk>, memory: seq<Byte>, r: Region, blockSize: nat)
      requires Progress(start, a, memory, r, blockSize) && BlockDone(memory, a, b, found, r, blockSize)
      ensures Progress(start, b, memory, r, blockSize)
    {
      MarksStep(start, a, b, found, memory, r, blockSize);
      TrackersStep(start, a, b, found);
      CopiedUpto(start.prov, memory, a.prov, b.prov, r, a.address, blockSize);
    }

    lemma TrackersStep(start: Stage, a: Stage, b: Stage, found: seq<Chunk>)
      requires TrackersDone(start, a) && TrackersFit(a.trackers)
      requires b.marks == a.marks + found && b.trackers == MarkEach(a.trackers, found)
      ensures TrackersDone(start, b)
    {
      MarkEachConcat(start.trackers, a.marks, found);
    }

    lemma CopiedUpto(before: seq<Byte>, memory: seq<Byte>, p: seq<Byte>, q: seq<Byte>, r: Region, o: nat,
                     blockSize: nat)
      requires RegionFits(r, |memory|, |before|) && r.start <= o < r.end && blockSize > 0
      requires p == Upto(before, memory, r, o)
      requires BlockCopied(memory, p, q, r.offset + o - r.start, o, BlockLength(r, o, blockSize))
      ensures q == Upto(before, memory, r, o + blockSize)
    {
      if updateMemory {
        var n := BlockLength(r, o, blockSize);
        assert Cut(r, o + n) == Cut(r, o + blockSize);
        SpliceGrows(before, memory, r, o, n);
      }
    }

    lemma FoundIsBlock(before: seq<Byte>, memory: seq<Byte>, p: seq<Byte>, found: seq<Chunk>, r: Region, o: nat, n: nat,
                       blockSize: nat)
      requires RegionFits(r, |memory|, |before|) && r.start <= o < r.end && blockSize > 0
      requires n == BlockLength(r, o, blockSize) && p == Upto(before, memory, r, o)
      requires BlockFound(memory, p, found, r.offset + o - r.start, o, n)
      ensures found == if updateDirty then Block(before, memory, r, o, blockSize) else []
    {
      RestStays(before, memory, p, r, o, n);
    }

    /** The rest of the region is as it was. */
    lemma RestStays(before: seq<Byte>, memory: seq<Byte>, p: seq<Byte>, r: Region, o: nat, n: nat)
      requires RegionFits(r, |memory|, |before|) && r.start <= o && o + n <= r.end && p == Upto(before, memory, r, o)
      ensures var at := r.offset + o - r.start; |p| == |before| && p[at..at + n] == before[at..at + n]
    {
    }

    lemma MarksStep(start: Stage, a: Stage, b: Stage, found: seq<Chunk>, memory: seq<Byte>, r: Region, blockSize: nat)
      requires Progress(start, a, memory, r, blockSize) && BlockDone(memory, a, b, found, r, blockSize)
      ensures MarksDone(start.prov, memory, r, b.address, blockSize, b.marks)
    {
      FoundIsBlock(start.prov, memory, a.prov, found, r, a.address, BlockLength(r, a.address, blockSize), blockSize);
      PendingStep(start.prov, memory, r, a.address, blockSize);
      Regroup(a.marks, found, Pending(start.prov, memory, r, b.address, blockSize));
    }

    lemma Regroup(a: seq<Chunk>, b: seq<Chunk>, c: seq<Chunk>)
      ensures a + (b + c) == (a + b) + c
    {
    }

    lemma PendingStep(before: seq<Byte>, memory: seq<Byte>, r: Region, o: nat, blockSize: nat)
      requires RegionFits(r, |memory|, |before|) && r.start <= o < r.end && blockSize > 0
      ensures Pending(before, memory, r, o, blockSize) ==
              (if updateDirty then Block(before, memory, r, o, blockSize) else [])
              + Pending(before, memory, r, o + blockSize, blockSize)
    {
      if !updateDirty {
        assert Pending(before, memory, r, o, blockSize) == [];
      }
    }

    /** The marks still to come from address `o` on. */
    ghost function Pending(before: seq<Byte>, memory: seq<Byte>, r: Region, o: nat, blockSize: nat): seq<Chunk>
      requires RegionFits(r, |memory|, |before|) && r.start <= o && blockSize > 0
    {
      if updateDirty then Chunks(before, memory, r, o, blockSize) else []
    }

    /** The provider once a region is done up to address `o`. */
    ghost function Upto(before: seq<Byte>, memory: seq<Byte>, r: Region, o: nat): (p: seq<Byte>)
      requires RegionFits(r, |memory|, |before|) && r.start <= o
    {
      if updateMemory then Splice(before, memory, Cut(r, o)) else before
    }

    /** grabMemoryChangesFailsafe, on a run without errors: the process is paused throughout. */
    method GrabFailsafe(blockSize: nat) returns (ghost marks: seq<Chunk>)
      requires Valid() && blockSize > 0
      modifies this`softPages, this`trackers, prov
      ensures Valid() && softPages == {}
      ensures prov[..] == if updateMemory then Overlay(old(prov[..]), mem[..], regions) else old(prov[..])
      ensures marks == if updateDirty then AllChunks(old(prov[..]), mem[..], regions, blockSize) else []
      ensures trackers == MarkEach(old(trackers), marks)
    {
      marks := [];
      ghost var before, ts := prov[..], trackers;
      MarkNone(trackers);
      for i := 0 to |regions|
        invariant Valid() && |before| == prov.Length && TrackersFit(ts)
        invariant prov[..] == Grabbed(before, mem[..], i)
        invariant marks == MarksUpto(before, mem[..], i, blockSize)
        invariant trackers == MarkEach(ts, marks)
      {
        EarlierRegionsApart(before, mem[..], i, blockSize);
        ghost var found := CompareRegion(regions[i], blockSize);
        MarkEachConcat(ts, marks, found);
        marks := marks + found;
        assert regions[..i + 1][..i] == regions[..i];
      }
      assert regions[..|regions|] == regions;
      softPages := {};
    }

    ghost function Grabbed(before: seq<Byte>, memory: seq<Byte>, i: nat): seq<Byte>
      requires Mapped(regions, |memory|, |before|) && i <= |regions|
    {
      if updateMemory then Overlay(before, memory, regions[..i]) else before
    }

    ghost function MarksUpto(before: seq<Byte>, memory: seq<Byte>, i: nat, blockSize: nat): seq<Chunk>
      requires Mapped(regions, |memory|, |before|) && i <= |regions| && blockSize > 0
    {
      if updateDirty then AllChunks(before, memory, regions[..i], blockSize) else []
    }

    /** What earlier regions copied does not show in the comparison of a later one. */
    lemma EarlierRegionsApart(before: seq<Byte>, memory: seq<Byte>, i: nat, blockSize: nat)
      requires Mapped(regions, |memory|, |before|) && i < |regions| && blockSize > 0
      ensures
        var r := regions[i];
        && |Grabbed(before, memory, i)| == |before|
        && Chunks(Grabbed(before, memory, i), memory, r, r.start, blockSize)
           == Chunks(before, memory, r, r.start, blockSize)
    {
      var r, front := regions[i], regions[..i];
      assert Mapped(front, |memory|, |before|);
      OverlayIsImage(before, memory, front);
      var p := Overlay(before, memory, front);
      forall x: nat | r.offset <= x < r.offset + (r.end - r.start) ensures p[x] == before[x] {
        forall k | 0 <= k < |front| ensures !Shows(front[k], x) {
          assert Apart(regions[k], regions[i]);
        }
      }
      ChunksAgree(p, before, memory, r, r.start, blockSize);
    }

    // ----- the guest -----

    /** The guest runs: every byte is the last one stored there, and whatever it changes becomes soft-dirty, a page at a
        time. */
    method GuestRuns(stores: seq<Store>)
      requires mem != prov
      modifies mem, this`softPages
      ensures old(softPages) <= softPages
      ensures forall a: nat | a < mem.Length && mem[a] != old(mem[a]) :: Soft(softPages, a)
      ensures forall a: nat | a < mem.Length :: mem[a] == Chains.Latest(StoredAt(a), stores, |stores|, old(mem[a]))
      ensures forall p | p in softPages && p !in old(softPages) :: StoredTo(stores, p)
      ensures stores == [] ==> softPages == old(softPages) && mem[..] == old(mem[..])
    {
      for i := 0 to |stores|
        invariant old(softPages) <= softPages
        invariant forall a: nat | a < mem.Length :: mem[a] == Chains.Latest(StoredAt(a), stores, i, old(mem[a]))
        invariant forall p | p in softPages && p !in old(softPages) :: StoredTo(stores, p)
        invariant forall a: nat | a < mem.Length && mem[a] != old(mem[a]) :: Soft(softPages, a)
        invariant i == 0 ==> softPages == old(softPages) && mem[..] == old(mem[..])
      {
        if stores[i].addr < mem.Length {
          mem[stores[i].addr] := stores[i].value;
          softPages := softPages + {stores[i].addr / PAGE};
        }
      }
    }

    // ----- soft-dirty grab -----

    /** Provider and memory differ only where the guest wrote since the last clear, or where a copy is still to come. */
    ghost predicate Covered(pending: set<nat>)
      requires Mapped(regions, mem.Length, prov.Length)
      reads this, mem, prov
    {
      forall i: nat, a: nat {:trigger In(regions, i, a)} | In(regions, i, a) ::
        prov[Off(regions, i, a)] == mem[a] || Soft(softPages, a) || a in pending
    }

    lemma OffsetsApart(i: nat, a: nat, j: nat, b: nat)
      requires Mapped(regions, mem.Length, prov.Length) && In(regions, i, a) && In(regions, j, b)
      requires i != j || a != b
      ensures Off(regions, i, a) != Off(regions, j, b) && Off(regions, i, a) < prov.Length
    {
      if i < j {
        assert Apart(regions[i], regions[j]);
      } else if j < i {
        assert Apart(regions[j], regions[i]);
      }
    }

    ghost predicate Stale(a: nat)
      requires Mapped(regions, mem.Length, prov.Length)
      reads mem, prov
    {
      exists i: nat ::
        In(regions, i, a) && Off(regions, i, a) < prov.Length && a < mem.Length && prov[Off(regions, i, a)] != mem[a]
    }

    /** The ranges of one region hold exactly its bytes on the given pages. */
    static ghost predicate RangesOf(pages: set<nat>, r: Region, ranges: seq<Range>) {
      && (forall k :: 0 <= k < |ranges| ==> r.start <= ranges[k].start < ranges[k].end <= r.end)
      && (forall a: nat | r.start <= a < r.end && a / PAGE in pages :: InSome(ranges, a))
      && (forall k, a: nat | 0 <= k < |ranges| && ranges[k].start <= a < ranges[k].end :: a / PAGE in pages)
    }

    ghost predicate SoftRanges(r: Region, ranges: seq<Range>)
      reads this`softPages
    {
      RangesOf(softPages, r, ranges)
    }

    static ghost predicate InSome(ranges: seq<Range>, a: nat) {
      exists k :: 0 <= k < |ranges| && ranges[k].start <= a < ranges[k].end
    }

    static lemma InSomeSplits(ranges: seq<Range>, k: nat, a: nat)
      requires k < |ranges|
      ensures InSome(ranges[..k + 1], a) ==> InSome(ranges[..k], a) || InRange(ranges[k], a)
    {
      if InSome(ranges[..k + 1], a) {
        var upto := ranges[..k + 1];
        var j :| 0 <= j < |upto| && upto[j].start <= a < upto[j].end;
        assert j < k ==> ranges[..k][j] == upto[j];
      }
    }

    method ReadSoftRanges(r: Region) returns (ranges: seq<Range>)
      requires r.start <= r.end
      ensures SoftRanges(r, ranges)
    {
      ranges := [];
      var a := r.start;
      while a < r.end
        invariant r.start <= a <= r.end
        invariant forall k :: 0 <= k < |ranges| ==> r.start <= ranges[k].start < ranges[k].end <= a
        invariant forall b: nat | r.start <= b < a && b / PAGE in softPages :: InSome(ranges, b)
        invariant forall k, b: nat | 0 <= k < |ranges| && ranges[k].start <= b < ranges[k].end :: b / PAGE in softPages
        decreases r.end - a
      {
        var page := a / PAGE;
        var next := if (page + 1) * PAGE < r.end then (page + 1) * PAGE else r.end;
        assert forall b: nat | a <= b < next :: b / PAGE == page;
        if page in softPages {
          ghost var earlier := ranges;
          ranges := ranges + [Range(a, next)];
          forall b: nat | r.start <= b < next && b / PAGE in softPages ensures InSome(ranges, b) {
            if b < a {
              var k :| 0 <= k < |earlier| && earlier[k].start <= b < earlier[k].end;
              assert ranges[k] == earlier[k];
            } else {
              assert ranges[|ranges| - 1] == Range(a, next);
            }
          }
        }
        a := next;
      }
    }

    /** Copying one range while the guest runs between any two byte accesses (CopyMemoryRanges, line 786). */
    method CopyRange(ghost i: nat, r: Region, rg: Range, guest: Guest, tick: nat, ghost pending: set<nat>)
      returns (next: nat)
      requires Valid() && i < |regions| && regions[i] == r
      requires r.start <= rg.start < rg.end <= r.end
      requires Covered(pending)
      modifies mem, prov, this`softPages
      ensures Valid() && next >= tick
      ensures Covered(pending - RangeSet(rg))
      ensures old(softPages) <= softPages
      ensures forall a: nat | a < mem.Length && mem[a] != old(mem[a]) :: Soft(softPages, a)
      ensures forall x: nat | x < prov.Length && !Shows(r, x) :: prov[x] == old(prov[x])
      ensures Stopped(guest) ==> softPages == old(softPages) && mem[..] == old(mem[..])
    {
      var n := rg.end - rg.start;
      var buffer := new Byte[n];
      next := ReadRange(rg, buffer, guest, tick, pending);
      next := WriteRange(i, r, rg, buffer, guest, next, pending);
    }

    static predicate InRange(rg: Range, a: nat) {
      rg.start <= a < rg.end
    }

    static ghost function RangeSet(rg: Range): set<nat> {
      set a: nat | rg.start <= a < rg.end && InRange(rg, a)
    }

    /** A byte read is the memory's, unless the guest wrote to it since. */
    ghost predicate Buffered(rg: Range, buffer: array<Byte>, n: nat)
      reads this`softPages, mem, buffer
    {
      && n <= buffer.Length && rg.start + n <= mem.Length
      && forall k :: 0 <= k < n ==> buffer[k] == mem[rg.start + k] || Soft(softPages, rg.start + k)
    }

    method ReadRange(rg: Range, buffer: array<Byte>, guest: Guest, tick: nat, ghost pending: set<nat>)
      returns (next: nat)
      requires Valid() && rg.start < rg.end <= mem.Length && buffer.Length == rg.end - rg.start
      requires buffer != mem && buffer != prov && Covered(pending)
      modifies mem, buffer, this`softPages
      ensures Valid() && next >= tick
      ensures Covered(pending) && Buffered(rg, buffer, buffer.Length)
      ensures old(softPages) <= softPages
      ensures forall a: nat | a < mem.Length && mem[a] != old(mem[a]) :: Soft(softPages, a)
      ensures Stopped(guest) ==> softPages == old(softPages) && mem[..] == old(mem[..])
    {
      next := tick;
      for k := 0 to buffer.Length
        invariant Valid() && next >= tick && Covered(pending) && Buffered(rg, buffer, k)
        invariant old(softPages) <= softPages
        invariant forall a: nat | a < mem.Length && mem[a] != old(mem[a]) :: Soft(softPages, a)
        invariant Stopped(guest) ==> softPages == old(softPages) && mem[..] == old(mem[..])
      {
        GuestRuns(guest(next));
        next := next + 1;
        buffer[k] := mem[rg.start + k];
      }
    }

    method WriteRange(ghost i: nat, r: Region, rg: Range, buffer: array<Byte>, guest: Guest, tick: nat,
                      ghost pending: set<nat>)
      returns (next: nat)
      requires Valid() && i < |regions| && regions[i] == r
      requires r.start <= rg.start < rg.end <= r.end && buffer.Length == rg.end - rg.start
      requires buffer != mem && buffer != prov
      requires Covered(pending) && Buffered(rg, buffer, buffer.Length)
      modifies mem, prov, this`softPages
      ensures Valid() && next >= tick
      ensures Covered(pending - RangeSet(rg))
      ensures old(softPages) <= softPages
      ensures forall a: nat | a < mem.Length && mem[a] != old(mem[a]) :: Soft(softPages, a)
      ensures forall x: nat | x < prov.Length && !Shows(r, x) :: prov[x] == old(prov[x])
      ensures Stopped(guest) ==> softPages == old(softPages) && mem[..] == old(mem[..])
    {
      next := tick;
      for k := 0 to buffer.Length
        invariant Valid() && next >= tick
        invariant Covered(pending - RangeSet(Range(rg.start, rg.start + k))) && Buffered(rg, buffer, buffer.Length)
        invariant old(softPages) <= softPages
        invariant forall a: nat | a < mem.Length && mem[a] != old(mem[a]) :: Soft(softPages, a)
        invariant forall x: nat | x < prov.Length && !Shows(r, x) :: prov[x] == old(prov[x])
        invariant Stopped(guest) ==> softPages == old(softPages) && mem[..] == old(mem[..])
      {
        GuestRuns(guest(next));
        next := next + 1;
        WriteByte(i, r, rg.start + k, buffer[k], pending - RangeSet(Range(rg.start, rg.start + k)));
        assert pending - RangeSet(Range(rg.start, rg.start + k)) - {rg.start + k} ==
               pending - RangeSet(Range(rg.start, rg.start + k + 1));
      }
      assert Range(rg.start, rg.start + buffer.Length) == rg;
    }

    method WriteByte(ghost i: nat, r: Region, a: nat, value: Byte, ghost pending: set<nat>)
      requires Valid() && In(regions, i, a) && regions[i] == r
      requires Covered(pending) && (value == mem[a] || Soft(softPages, a))
      modifies prov
      ensures Off(regions, i, a) < prov.Length && prov[..] == old(prov[..])[Off(regions, i, a) := value]
      ensures Covered(pending - {a})
      ensures forall x: nat | x < prov.Length && !Shows(r, x) :: prov[x] == old(prov[x])
    {
      var x := a - (r.start - r.offset);
      prov[x] := value;
      forall j: nat, b: nat | In(regions, j, b)
        ensures prov[Off(regions, j, b)] == mem[b] || Soft(softPages, b) || b in pending - {a}
      {
        if i != j || a != b {
          OffsetsApart(i, a, j, b);
          assert a == b ==> Apart(regions[i], regions[j]) || Apart(regions[j], regions[i]);
        }
      }
    }

    /** All the ranges of one region. */
    method CopyRegion(ghost i: nat, r: Region, ranges: seq<Range>, guest: Guest, tick: nat, ghost pending: set<nat>)
      returns (next: nat, ghost rest: set<nat>)
      requires Valid() && i < |regions| && regions[i] == r && Covered(pending)
      requires forall k :: 0 <= k < |ranges| ==> r.start <= ranges[k].start < ranges[k].end <= r.end
      modifies mem, prov, this`softPages
      ensures Valid() && next >= tick && Covered(rest) && rest <= pending
      ensures forall a: nat | a in rest :: !InSome(ranges, a)
      ensures old(softPages) <= softPages
      ensures forall a: nat | a < mem.Length && mem[a] != old(mem[a]) :: Soft(softPages, a)
      ensures forall x: nat | x < prov.Length && !Shows(r, x) :: prov[x] == old(prov[x])
      ensures Stopped(guest) ==> softPages == old(softPages) && mem[..] == old(mem[..])
    {
      next, rest := tick, pending;
      for k := 0 to |ranges|
        invariant Valid() && next >= tick && Covered(rest) && rest <= pending
        invariant forall a: nat | a in rest :: !InSome(ranges[..k], a)
        invariant old(softPages) <= softPages
        invariant forall a: nat | a < mem.Length && mem[a] != old(mem[a]) :: Soft(softPages, a)
        invariant forall x: nat | x < prov.Length && !Shows(r, x) :: prov[x] == old(prov[x])
        invariant Stopped(guest) ==> softPages == old(softPages) && mem[..] == old(mem[..])
      {
        next := CopyRange(i, r, ranges[k], guest, next, rest);
        rest := rest - RangeSet(ranges[k]);
        forall a: nat | a in rest ensures !InSome(ranges[..k + 1], a) {
          assert !InRange(ranges[k], a);
          InSomeSplits(ranges, k, a);
        }
      }
      assert ranges[..|ranges|] == ranges;
    }

    /** What the pause collects: the soft-dirty ranges of every region. */
    static ghost predicate AllRangesOf(pages: set<nat>, rs: seq<Region>, copyData: seq<seq<Range>>) {
      |copyData| <= |rs| && forall i :: 0 <= i < |copyData| ==> RangesOf(pages, rs[i], copyData[i])
    }

    ghost predicate Collected(copyData: seq<seq<Range>>)
      reads this`softPages
    {
      AllRangesOf(softPages, regions, copyData)
    }

    /** The part of grabMemoryChangesSoftDirty in which the process is paused. */
    method CollectAndClear() returns (copyData: seq<seq<Range>>)
      requires Valid()
      modifies this`softPages
      ensures |copyData| == |regions| && old(Collected(copyData)) && softPages == {}
    {
      copyData := [];
      for i := 0 to |regions|
        invariant |copyData| == i && Collected(copyData)
        invariant softPages == old(softPages)
      {
        assert RegionFits(regions[i], mem.Length, prov.Length);
        var ranges := ReadSoftRanges(regions[i]);
        copyData := copyData + [ranges];
      }
      softPages := {};
    }

    /** The copy, while the guest runs. */
    method CopyAll(copyData: seq<seq<Range>>, guest: Guest, tick: nat, ghost pending: set<nat>)
      returns (next: nat, ghost rest: set<nat>)
      requires Valid() && |copyData| == |regions| && Covered(pending)
      requires forall i :: 0 <= i < |copyData| ==> RangesFit(regions[i], copyData[i])
      modifies mem, prov, this`softPages
      ensures Valid() && next >= tick && Covered(rest) && rest <= pending
      ensures forall i, a: nat | 0 <= i < |copyData| && a in rest :: !InSome(copyData[i], a)
      ensures old(softPages) <= softPages
      ensures forall a: nat | a < mem.Length && mem[a] != old(mem[a]) :: Soft(softPages, a)
      ensures forall x: nat | x < prov.Length && (forall i :: 0 <= i < |regions| ==> !Shows(regions[i], x)) ::
                prov[x] == old(prov[x])
      ensures Stopped(guest) ==> softPages == old(softPages) && mem[..] == old(mem[..])
    {
      next, rest := tick, pending;
      for i := 0 to |regions|
        invariant Valid() && next >= tick && Covered(rest) && rest <= pending
        invariant forall j, a: nat | 0 <= j < i && a in rest :: !InSome(copyData[j], a)
        invariant old(softPages) <= softPages
        invariant forall a: nat | a < mem.Length && mem[a] != old(mem[a]) :: Soft(softPages, a)
        invariant forall x: nat | x < prov.Length && (forall i :: 0 <= i < |regions| ==> !Shows(regions[i], x)) ::
                    prov[x] == old(prov[x])
        invariant Stopped(guest) ==> softPages == old(softPages) && mem[..] == old(mem[..])
      {
        next, rest := CopyRegion(i, regions[i], copyData[i], guest, next, rest);
      }
    }

    // ----- marking the soft-dirty ranges -----

    static function RangeChunk(r: Region, rg: Range): Chunk
      requires r.start <= rg.start < rg.end <= r.end
    {
      Chunk(rg.start - r.start + r.offset, rg.end - rg.start)
    }

    static predicate RangesFit(r: Region, ranges: seq<Range>) {
      forall k :: 0 <= k < |ranges| ==> r.start <= ranges[k].start < ranges[k].end <= r.end
    }

    static function RangeChunks(r: Region, ranges: seq<Range>): (cs: seq<Chunk>)
      requires RangesFit(r, ranges)
      ensures |cs| == |ranges| && forall k :: 0 <= k < |ranges| ==> cs[k] == RangeChunk(r, ranges[k])
      decreases |ranges|
    {
      if ranges == [] then []
      else RangeChunks(r, ranges[..|ranges| - 1]) + [RangeChunk(r, ranges[|ranges| - 1])]
    }

    static function AllRangeChunks(rs: seq<Region>, copyData: seq<seq<Range>>): (cs: seq<Chunk>)
      requires |copyData| <= |rs| && forall i :: 0 <= i < |copyData| ==> RangesFit(rs[i], copyData[i])
      decreases |copyData|
    {
      if copyData == [] then []
      else
        var k := |copyData| - 1;
        AllRangeChunks(rs, copyData[..k]) + RangeChunks(rs[k], copyData[k])
    }

    method MarkRegion(r: Region, ranges: seq<Range>, guest: Guest, tick: nat) returns (next: nat)
      requires Valid() && RangesFit(r, ranges)
      modifies mem, this`softPages, this`trackers
      ensures Valid() && next >= tick
      ensures trackers == MarkEach(old(trackers), RangeChunks(r, ranges))
      ensures old(softPages) <= softPages
      ensures forall a: nat | a < mem.Length && mem[a] != old(mem[a]) :: Soft(softPages, a)
      ensures Stopped(guest) ==> softPages == old(softPages) && mem[..] == old(mem[..])
    {
      next := tick;
      ghost var ts := trackers;
      MarkNone(ts);
      for k := 0 to |ranges|
        invariant Valid() && next >= tick && TrackersFit(ts)
        invariant trackers == MarkEach(ts, RangeChunks(r, ranges[..k]))
        invariant old(softPages) <= softPages
        invariant forall a: nat | a < mem.Length && mem[a] != old(mem[a]) :: Soft(softPages, a)
        invariant Stopped(guest) ==> softPages == old(softPages) && mem[..] == old(mem[..])
      {
        GuestRuns(guest(next));
        next := next + 1;
        ghost var done := RangeChunks(r, ranges[..k]);
        MarkDirty(RangeChunk(r, ranges[k]));
        MarkEachConcat(ts, done, [RangeChunk(r, ranges[k])]);
        assert ranges[..k + 1][..k] == ranges[..k];
      }
      assert ranges[..|ranges|] == ranges;
    }

    method MarkRanges(copyData: seq<seq<Range>>, guest: Guest) returns (next: nat)
      requires Valid() && |copyData| == |regions|
      requires forall i :: 0 <= i < |copyData| ==> RangesFit(regions[i], copyData[i])
      modifies mem, this`softPages, this`trackers
      ensures Valid()
      ensures trackers == MarkEach(old(trackers), AllRangeChunks(regions, copyData))
      ensures old(softPages) <= softPages
      ensures forall a: nat | a < mem.Length && mem[a] != old(mem[a]) :: Soft(softPages, a)
      ensures Stopped(guest) ==> softPages == old(softPages) && mem[..] == old(mem[..])
    {
      next := 0;
      ghost var ts := trackers;
      MarkNone(ts);
      for i := 0 to |copyData|
        invariant Valid() && TrackersFit(ts)
        invariant trackers == MarkEach(ts, AllRangeChunks(regions, copyData[..i]))
        invariant old(softPages) <= softPages
        invariant forall a: nat | a < mem.Length && mem[a] != old(mem[a]) :: Soft(softPages, a)
        invariant Stopped(guest) ==> softPages == old(softPages) && mem[..] == old(mem[..])
      {
        next := MarkRegion(regions[i], copyData[i], guest, next);
        MarkEachConcat(ts, AllRangeChunks(regions, copyData[..i]), RangeChunks(regions[i], copyData[i]));
        assert copyData[..i + 1][..i] == copyData[..i];
      }
      assert copyData[..|copyData|] == copyData;
    }

    /** Each collected range is marked. */
    static lemma {:induction false} RangesAreFound(rs: seq<Region>, copyData: seq<seq<Range>>, i: nat, k: nat)
      requires |copyData| <= |rs| && forall j :: 0 <= j < |copyData| ==> RangesFit(rs[j], copyData[j])
      requires i < |copyData| && RangesFit(rs[i], copyData[i]) && k < |copyData[i]|
      ensures RangeChunk(rs[i], copyData[i][k]) in AllRangeChunks(rs, copyData)
      decreases |copyData|
    {
      var last := |copyData| - 1;
      if i < last {
        RangesAreFound(rs, copyData[..last], i, k);
      } else {
        assert RangeChunks(rs[i], copyData[i])[k] == RangeChunk(rs[i], copyData[i][k]);
      }
    }

    /** And nothing else is. */
    static lemma {:induction false} FoundAreRanges(rs: seq<Region>, copyData: seq<seq<Range>>, c: Chunk)
      returns (i: nat, k: nat)
      requires |copyData| <= |rs| && forall j :: 0 <= j < |copyData| ==> RangesFit(rs[j], copyData[j])
      requires c in AllRangeChunks(rs, copyData)
      ensures i < |copyData| && RangesFit(rs[i], copyData[i]) && k < |copyData[i]| &&
              c == RangeChunk(rs[i], copyData[i][k])
      decreases |copyData|
    {
      var last := |copyData| - 1;
      if c in AllRangeChunks(rs, copyData[..last]) {
        i, k := FoundAreRanges(rs, copyData[..last], c);
      } else {
        i := last;
        k :| 0 <= k < |RangeChunks(rs[i], copyData[i])| && RangeChunks(rs[i], copyData[i])[k] == c;
      }
    }

    lemma SoftIsMarked(copyData: seq<seq<Range>>, i: nat, a: nat)
      requires |copyData| == |regions| && forall j :: 0 <= j < |copyData| ==> RangesFit(regions[j], copyData[j])
      requires In(regions, i, a) && InSome(copyData[i], a)
      ensures Found(AllRangeChunks(regions, copyData), Off(regions, i, a))
    {
      var k :| 0 <= k < |copyData[i]| && copyData[i][k].start <= a < copyData[i][k].end;
      RangesAreFound(regions, copyData, i, k);
      assert Within(RangeChunk(regions[i], copyData[i][k]), Off(regions, i, a));
    }

    lemma MarkedIsCollected(copyData: seq<seq<Range>>, c: Chunk, x: nat) returns (i: nat, a: nat)
      requires |copyData| == |regions| && forall j :: 0 <= j < |copyData| ==> RangesFit(regions[j], copyData[j])
      requires c in AllRangeChunks(regions, copyData) && Within(c, x)
      ensures In(regions, i, a) && Off(regions, i, a) == x && InSome(copyData[i], a)
    {
      var k;
      i, k := FoundAreRanges(regions, copyData, c);
      a := copyData[i][k].start + (x - c.offset);
    }

    lemma CoveredByte(i: nat, x: nat)
      requires Valid() && Covered({}) && softPages == {} && i < |regions| && Shows(regions[i], x)
      ensures RegionFits(regions[i], mem.Length, prov.Length)
      ensures prov[x] == mem[regions[i].start + (x - regions[i].offset)]
    {
      var a := regions[i].start + (x - regions[i].offset);
      assert In(regions, i, a) && Off(regions, i, a) == x;
    }

    lemma CoveredIsImage(before: seq<Byte>)
      requires Valid() && Covered({}) && softPages == {} && |before| == prov.Length
      requires forall x: nat | x < prov.Length && (forall i :: 0 <= i < |regions| ==> !Shows(regions[i], x)) ::
                 prov[x] == before[x]
      ensures IsImage(prov[..], before, mem[..], regions)
    {
      var p, m := prov[..], mem[..];
      forall i, x: nat | 0 <= i < |regions| && RegionFits(regions[i], |m|, |p|) && Shows(regions[i], x)
        ensures p[x] == m[regions[i].start + (x - regions[i].offset)]
      {
        CoveredByte(i, x);
      }
    }

    /** With nothing soft-dirty and nothing pending, the provider is the image. */
    lemma CoveredImage(before: seq<Byte>)
      requires Valid() && Covered({}) && softPages == {} && |before| == prov.Length
      requires forall x: nat | x < prov.Length && (forall i :: 0 <= i < |regions| ==> !Shows(regions[i], x)) ::
                 prov[x] == before[x]
      ensures prov[..] == Overlay(before, mem[..], regions)
    {
      CoveredIsImage(before);
      OverlayIsImage(before, mem[..], regions);
      ImageIsUnique(prov[..], Overlay(before, mem[..], regions), before, mem[..], regions);
    }

    // ----- the soft-dirty grab as a whole -----

    /** grabMemoryChangesSoftDirty, on a run without errors: collect and clear while paused, then mark and copy while
        the guest runs. With the guest stopped it leaves exactly what the full comparison leaves. `ranges` is what the
        settings have it mark, copy or both. */
    method GrabSoftDirty(guest: Guest) returns (ghost ranges: seq<Chunk>)
      requires Valid()
      modifies mem, prov, this`softPages, this`trackers
      ensures Valid()
      ensures updateMemory && old(Covered({})) ==> Covered({})
      ensures updateMemory && old(Covered({})) && Stopped(guest) ==>
                prov[..] == Overlay(old(prov[..]), mem[..], regions)
      ensures !updateMemory ==> prov[..] == old(prov[..])
      ensures forall x: nat | x < prov.Length && (forall i :: 0 <= i < |regions| ==> !Shows(regions[i], x)) ::
                prov[x] == old(prov[x])
      ensures Stopped(guest) ==> softPages == {} && mem[..] == old(mem[..])
      ensures forall a: nat | a < mem.Length && mem[a] != old(mem[a]) :: Soft(softPages, a)
      ensures trackers == if updateDirty then MarkEach(old(trackers), ranges) else old(trackers)
      ensures forall i: nat, a: nat {:trigger In(regions, i, a)} | In(regions, i, a) && old(Soft(softPages, a)) ::
                Found(ranges, Off(regions, i, a))
      ensures forall c, x: nat | c in ranges && Within(c, x) ::
                exists i: nat, a: nat :: In(regions, i, a) && old(Soft(softPages, a)) && Off(regions, i, a) == x
    {
      ghost var pending := set a: nat | a < mem.Length && (Soft(softPages, a) || Stale(a));
      var copyData := CollectAndClear();
      assert forall i :: 0 <= i < |copyData| ==> RangesFit(regions[i], copyData[i]);
      assert Covered(pending) by {
        forall i: nat, a: nat | In(regions, i, a)
          ensures prov[Off(regions, i, a)] == mem[a] || Soft(softPages, a) || a in pending
        {
          assert RegionFits(regions[i], mem.Length, prov.Length);
        }
      }
      var next := 0;
      ranges := AllRangeChunks(regions, copyData);
      if updateDirty {
        next := MarkRanges(copyData, guest);
      }
      forall i: nat, a: nat | In(regions, i, a) && old(Soft(softPages, a)) ensures Found(ranges, Off(regions, i, a)) {
        SoftIsMarked(copyData, i, a);
      }
      forall c, x: nat | c in ranges && Within(c, x)
        ensures exists i: nat, a: nat :: In(regions, i, a) && old(Soft(softPages, a)) && Off(regions, i, a) == x
      {
        var i, a := MarkedIsCollected(copyData, c, x);
        assert old(Soft(softPages, a));
      }
      if updateMemory {
        ghost var rest;
        next, rest := CopyAll(copyData, guest, next, pending);
        assert old(Covered({})) ==> Covered({});
        if old(Covered({})) && Stopped(guest) {
          CoveredImage(old(prov[..]));
        }
      }
    }
  }
}
