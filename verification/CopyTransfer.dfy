/** Memory that soft-dirty grabs copy to its device while the machine runs (runtime.go:668-757, 782-795): guest writes,
    the clear of a grab, the reads and writes of single bytes of its copy and the migration's fetches interleave freely.
    A write through the device marks it on the device's tracker. Block by block this is a run of the memory device of
    the handover, whose readers see the device. */
module CopyTransfer {
  import opened MemoryImage
  import opened MemoryGrab
  import opened DirectMemory
  import opened Chains
  import opened GrabIsFlush
  import Handover
  import System = HandoverSystem

  /** `pending` are the offsets a grab has still to write, `buffer` the bytes it has read and not written. */
  datatype World = World(
    memory: seq<Byte>, soft: set<nat>, prov: seq<Byte>, tracker: Tracker, pending: set<nat>, buffer: map<nat, Byte>)

  datatype Event =
    | Write(a: nat, value: Byte)
    | Clear
    | Load(x: nat)
    | Save(x: nat)
    | Fetch

  /** The device offsets of the soft-dirty bytes. */
  function SoftOffsets(rs: seq<Region>, soft: set<nat>): set<nat> {
    set i, a | 0 <= i < |rs| && rs[i].start <= a < rs[i].end && Soft(soft, a) :: Off(rs, i, a)
  }

  ghost predicate Formed(rs: seq<Region>, w: World) {
    && Mapped(rs, |w.memory|, |w.prov|) && w.tracker.Tracking? && w.tracker.blockSize > 0
    && (forall x | x in w.pending :: x < |w.prov| && Shown(rs, x))
    && w.buffer.Keys <= w.pending
  }

  ghost predicate Possible(rs: seq<Region>, w: World, e: Event) {
    && Formed(rs, w)
    && match e
       case Write(a, _) => a < |w.memory|
       case Clear => w.pending == {}
       case Load(x) => x in w.pending
       case Save(x) => x in w.buffer
       case Fetch => true
  }

  ghost function Do(rs: seq<Region>, w: World, e: Event): World
    requires Possible(rs, w, e)
  {
    match e
    case Write(a, value) => w.(memory := w.memory[a := value], soft := w.soft + {a / PAGE})
    case Clear => w.(soft := {}, pending := SoftOffsets(rs, w.soft), buffer := map[])
    case Load(x) => w.(buffer := w.buffer[x := Overlay(w.prov, w.memory, rs)[x]])
    case Save(x) =>
      w.(prov := w.prov[x := w.buffer[x]], tracker := Mark(w.tracker, Chunk(x, 1)), pending := w.pending - {x},
         buffer := w.buffer - {x})
    case Fetch => w.(tracker := w.tracker.(blocks := {}))
  }

  // ----- nothing gets lost -----

  /** A byte differs from memory only while it is soft-dirty or to be written, and one that was read is memory's unless
      the guest has written to it since. */
  ghost predicate SafeAt(rs: seq<Region>, w: World, i: nat, a: nat)
    requires In(rs, i, a) && Mapped(rs, |w.memory|, |w.prov|)
  {
    var x := Off(rs, i, a);
    && (w.prov[x] == w.memory[a] || Soft(w.soft, a) || x in w.pending)
    && (x in w.buffer ==> w.buffer[x] == w.memory[a] || Soft(w.soft, a))
  }

  ghost predicate Safe(rs: seq<Region>, w: World) {
    Formed(rs, w) && forall i, a | In(rs, i, a) :: SafeAt(rs, w, i, a)
  }

  lemma PendingFormed(rs: seq<Region>, w: World)
    requires Possible(rs, w, Clear)
    ensures Formed(rs, Do(rs, w, Clear))
  {
    forall x | x in SoftOffsets(rs, w.soft) ensures x < |w.prov| && Shown(rs, x) {
      var i, a :| 0 <= i < |rs| && rs[i].start <= a < rs[i].end && Soft(w.soft, a) && Off(rs, i, a) == x;
      ImageAt(rs, w.prov, w.memory, i, a);
    }
  }

  lemma EventKeepsAt(rs: seq<Region>, w: World, e: Event, i: nat, a: nat)
    requires Safe(rs, w) && Possible(rs, w, e) && In(rs, i, a)
    ensures Mapped(rs, |Do(rs, w, e).memory|, |Do(rs, w, e).prov|) && SafeAt(rs, Do(rs, w, e), i, a)
  {
    assert SafeAt(rs, w, i, a);
    match e
    case Write(b, value) =>
    case Clear =>
      if Soft(w.soft, a) {
        assert Off(rs, i, a) in SoftOffsets(rs, w.soft);
      }
    case Load(x) => ImageAt(rs, w.prov, w.memory, i, a);
    case Save(x) =>
    case Fetch =>
  }

  lemma EventKeeps(rs: seq<Region>, w: World, e: Event)
    requires Safe(rs, w) && Possible(rs, w, e)
    ensures Safe(rs, Do(rs, w, e))
  {
    if e.Clear? {
      PendingFormed(rs, w);
    }
    forall i, a | In(rs, i, a) ensures SafeAt(rs, Do(rs, w, e), i, a) {
      EventKeepsAt(rs, w, e, i, a);
    }
  }

  // ----- the memory device in that picture -----

  ghost predicate PendingBlock(pending: set<nat>, size: nat, b: nat)
    requires size > 0
  {
    exists x | x in pending :: x / size == b
  }

  /** A byte of the block is soft-dirty or to be written. */
  ghost function BehindOf(rs: seq<Region>, soft: set<nat>, pending: set<nat>, device: nat, size: nat): set<nat>
    requires size > 0
  {
    set b: nat | b < NumBlocks(device, size) && (SoftBlock(rs, soft, size, b) || PendingBlock(pending, size, b))
  }

  ghost function Behind(rs: seq<Region>, w: World): set<nat>
    requires w.tracker.Tracking? && w.tracker.blockSize > 0
  {
    BehindOf(rs, w.soft, w.pending, |w.prov|, w.tracker.blockSize)
  }

  ghost predicate Copied(rs: seq<Region>, w: World, st: System.Store) {
    && Formed(rs, w)
    && Pictures(st, Overlay(w.prov, w.memory, rs), w.prov, Behind(rs, w), w.tracker)
  }

  ghost predicate CopyFollows(rs: seq<Region>, st: System.Store, w: World) {
    exists next: System.Store :: Copied(rs, w, next) && Linked(Moves, st, next)
  }

  // ----- a guest write -----

  /** Writing a set of blocks one at a time, unseen by the readers of the device. */
  lemma {:induction false} UnseenInTurn(st: System.Store, view: seq<seq<Byte>>, blocks: set<nat>)
    returns (next: System.Store)
    requires |view| == |st.guest| == |st.src| && (forall b | b in blocks :: b < |view|)
    requires forall b | 0 <= b < |view| && b !in blocks :: st.guest[b] == view[b]
    ensures Linked(Moves, st, next)
    ensures next == st.(guest := view, unflushed := st.unflushed + blocks)
    decreases |blocks|
  {
    LinkedToItself<System.Store, Move>(Moves, st);
    if blocks == {} {
      next := st;
      assert st.unflushed + blocks == st.unflushed;
    } else {
      var b :| b in blocks;
      var u := System.Written(Handover.MEMORY, st, b, view[b], false);
      LinkedOn(Moves, st, st, Writes(b, view[b], false), u);
      next := UnseenInTurn(u, view, blocks - {b});
      LinkedJoins(Moves, st, u, next);
      assert st.unflushed + {b} + (blocks - {b}) == st.unflushed + blocks;
    }
  }

  lemma WriteIsUnseen(rs: seq<Region>, w: World, a: nat, value: Byte, st: System.Store) returns (next: System.Store)
    requires Possible(rs, w, Write(a, value)) && Copied(rs, w, st)
    ensures Linked(Moves, st, next) && Copied(rs, Do(rs, w, Write(a, value)), next)
  {
    var v, size := Do(rs, w, Write(a, value)), w.tracker.blockSize;
    var view, blocks := InBlocks(Overlay(w.prov, v.memory, rs), size), Behind(rs, v);
    assert Behind(rs, w) <= blocks by {
      SoftGrows(rs, w.soft, v.soft, size);
    }
    forall b | 0 <= b < |view| && b !in blocks ensures st.guest[b] == view[b] {
      UnwrittenBlock(rs, w.prov, w.memory, a, value, w.soft, size, b);
    }
    next := UnseenInTurn(st, view, blocks);
    assert st.unflushed + blocks == blocks;
  }

  // ----- the clear, a read and a fetch -----

  lemma PendingIsSoft(rs: seq<Region>, soft: set<nat>, size: nat, b: nat)
    requires size > 0
    ensures PendingBlock(SoftOffsets(rs, soft), size, b) <==> SoftBlock(rs, soft, size, b)
  {
    if SoftBlock(rs, soft, size, b) {
      var i, a :| In(rs, i, a) && Soft(soft, a) && Off(rs, i, a) / size == b;
      assert Off(rs, i, a) in SoftOffsets(rs, soft);
    }
    if PendingBlock(SoftOffsets(rs, soft), size, b) {
      var x :| x in SoftOffsets(rs, soft) && x / size == b;
      var i, a :| 0 <= i < |rs| && rs[i].start <= a < rs[i].end && Soft(soft, a) && Off(rs, i, a) == x;
      assert In(rs, i, a);
    }
  }

  lemma ClearLeavesBehind(rs: seq<Region>, w: World, st: System.Store)
    requires Possible(rs, w, Clear) && Copied(rs, w, st)
    ensures Copied(rs, Do(rs, w, Clear), st)
  {
    var v, size := Do(rs, w, Clear), w.tracker.blockSize;
    PendingFormed(rs, w);
    forall b ensures SoftBlock(rs, w.soft, size, b) <==> PendingBlock(v.pending, size, b) {
      PendingIsSoft(rs, w.soft, size, b);
    }
    forall b ensures !PendingBlock({}, size, b) && !SoftBlock(rs, {}, size, b) {
    }
    assert Behind(rs, v) == Behind(rs, w);
  }

  lemma LoadLeaves(rs: seq<Region>, w: World, x: nat, st: System.Store)
    requires Possible(rs, w, Load(x)) && Copied(rs, w, st)
    ensures Copied(rs, Do(rs, w, Load(x)), st)
  {
    assert Behind(rs, Do(rs, w, Load(x))) == Behind(rs, w);
  }

  lemma FetchTakes(rs: seq<Region>, w: World, st: System.Store)
    requires Possible(rs, w, Fetch) && Copied(rs, w, st)
    ensures Copied(rs, Do(rs, w, Fetch), System.Fetched(st))
  {
    assert Behind(rs, Do(rs, w, Fetch)) == Behind(rs, w);
  }

  // ----- a byte written to the device -----

  lemma ViewStays(rs: seq<Region>, prov: seq<Byte>, memory: seq<Byte>, x: nat, value: Byte)
    requires Mapped(rs, |memory|, |prov|) && x < |prov| && Shown(rs, x)
    ensures Overlay(prov[x := value], memory, rs) == Overlay(prov, memory, rs)
  {
    OverlayIsImage(prov[x := value], memory, rs);
    OverlayIsImage(prov, memory, rs);
    ImageIsUnique(Overlay(prov[x := value], memory, rs), Overlay(prov, memory, rs), prov, memory, rs);
  }

  lemma OneBlockChanges(prov: seq<Byte>, x: nat, value: Byte, size: nat)
    requires size > 0 && x < |prov|
    ensures x / size < NumBlocks(|prov|, size)
    ensures InBlocks(prov[x := value], size)
            == InBlocks(prov, size)[x / size := InBlocks(prov[x := value], size)[x / size]]
  {
    ByteInBlock(|prov|, size, x);
    var p, q := InBlocks(prov, size), InBlocks(prov[x := value], size);
    forall b | 0 <= b < |p| && b != x / size ensures q[b] == p[b] {
      OtherBlockStays(prov, x, value, size, b);
    }
  }

  lemma OtherBlockStays(prov: seq<Byte>, x: nat, value: Byte, size: nat, b: nat)
    requires size > 0 && x < |prov| && b < NumBlocks(|prov|, size) && b != x / size
    ensures InBlocks(prov[x := value], size)[b] == InBlocks(prov, size)[b]
  {
    SameBytes(prov[x := value], prov, size, b);
  }

  lemma OneByteMarked(t: Tracker, x: nat)
    requires t.Tracking? && t.blockSize > 0
    ensures Mark(t, Chunk(x, 1)) == t.(blocks := t.blocks + {x / t.blockSize})
  {
    assert BlocksOf(Chunk(x, 1), t.blockSize) == {x / t.blockSize};
  }

  lemma PendingOneLess(pending: set<nat>, x: nat, size: nat, b: nat)
    requires size > 0 && x in pending
    ensures PendingBlock(pending, size, x / size)
    ensures b != x / size ==> (PendingBlock(pending - {x}, size, b) <==> PendingBlock(pending, size, b))
  {
    if b != x / size && PendingBlock(pending, size, b) {
      var y :| y in pending && y / size == b;
      assert y in pending - {x};
    }
  }

  /** Only the block of the byte can catch up. */
  lemma BehindAfterSave(rs: seq<Region>, soft: set<nat>, pending: set<nat>, device: nat, size: nat, x: nat)
    requires size > 0 && x in pending && x < device
    ensures var before, after := BehindOf(rs, soft, pending, device, size),
                                BehindOf(rs, soft, pending - {x}, device, size);
            x / size in before && after == if x / size in after then before else before - {x / size}
  {
    ByteInBlock(device, size, x);
    forall b ensures b != x / size ==> (PendingBlock(pending - {x}, size, b) <==> PendingBlock(pending, size, b)) {
      PendingOneLess(pending, x, size, b);
    }
    PendingOneLess(pending, x, size, x / size);
  }

  /** A block that has caught up is memory's. */
  lemma BlockIsFresh(rs: seq<Region>, w: World, b: nat)
    requires Safe(rs, w) && b < NumBlocks(|w.prov|, w.tracker.blockSize) && b !in Behind(rs, w)
    ensures InBlocks(w.prov, w.tracker.blockSize)[b] == InBlocks(Overlay(w.prov, w.memory, rs), w.tracker.blockSize)[b]
  {
    var view, size := Overlay(w.prov, w.memory, rs), w.tracker.blockSize;
    forall y: nat | y < |w.prov| && y / size == b ensures w.prov[y] == view[y] {
      ByteIsFresh(rs, w, y);
    }
    SameBytes(w.prov, view, size, b);
  }

  lemma ByteIsFresh(rs: seq<Region>, w: World, y: nat)
    requires Safe(rs, w) && y < |w.prov|
    requires !SoftBlock(rs, w.soft, w.tracker.blockSize, y / w.tracker.blockSize)
    requires !PendingBlock(w.pending, w.tracker.blockSize, y / w.tracker.blockSize)
    ensures w.prov[y] == Overlay(w.prov, w.memory, rs)[y]
  {
    if i :| 0 <= i < |rs| && Shows(rs[i], y) {
      var a := rs[i].start + (y - rs[i].offset);
      assert In(rs, i, a) && Off(rs, i, a) == y && SafeAt(rs, w, i, a);
      assert !Soft(w.soft, a);
      ImageAt(rs, w.prov, w.memory, i, a);
    } else {
      OverlayHidden(w.prov, w.memory, rs, y);
    }
  }

  lemma SaveIsBack(rs: seq<Region>, w: World, x: nat, st: System.Store) returns (next: System.Store)
    requires Safe(rs, w) && Possible(rs, w, Save(x)) && Copied(rs, w, st)
    ensures Linked(Moves, st, next) && Copied(rs, Do(rs, w, Save(x)), next)
  {
    var v, size := Do(rs, w, Save(x)), w.tracker.blockSize;
    var b, value := x / size, w.buffer[x];
    ViewStays(rs, w.prov, w.memory, x, value);
    OneBlockChanges(w.prov, x, value, size);
    OneByteMarked(w.tracker, x);
    BehindAfterSave(rs, w.soft, w.pending, |w.prov|, size, x);
    EventKeeps(rs, w, Save(x));
    LinkedToItself<System.Store, Move>(Moves, st);
    if b in Behind(rs, v) {
      next := System.Torn(st, b, InBlocks(v.prov, size)[b]);
      LinkedOn(Moves, st, st, Tears(b, InBlocks(v.prov, size)[b]), next);
    } else {
      BlockIsFresh(rs, v, b);
      next := System.WrittenBack(st, b);
      LinkedOn(Moves, st, st, Back(b), next);
    }
  }

  // ----- runs -----

  ghost predicate Run(rs: seq<Region>, ws: seq<World>, es: seq<Event>) {
    && |ws| == |es| + 1
    && forall k | 0 <= k < |es| :: Possible(rs, ws[k], es[k]) && ws[k + 1] == Do(rs, ws[k], es[k])
  }

  /** What an event stores at address `a`. */
  function StoredAt(a: nat): Event -> Option<Byte> {
    (e: Event) => if e.Write? && e.a == a then Some(e.value) else None
  }

  /** Memory is what the guest wrote: at every address the last value stored there, whatever else happened. */
  lemma MemoryIsWritten(rs: seq<Region>, ws: seq<World>, es: seq<Event>, k: nat, a: nat)
    requires Run(rs, ws, es) && k < |ws| && a < |ws[0].memory|
    ensures |ws[k].memory| == |ws[0].memory|
    ensures ws[k].memory[a] == Latest(StoredAt(a), es, k, ws[0].memory[a])
  {
    var size := |ws[0].memory|;
    var sized := (w: World) => |w.memory| == size;
    forall i | 0 <= i < |ws| - 1 && sized(ws[i]) ensures sized(ws[i + 1]) {
      assert Possible(rs, ws[i], es[i]) && ws[i + 1] == Do(rs, ws[i], es[i]);
    }
    Stepwise(ws, sized, 0, k);
    var value := (w: World) => if a < |w.memory| then w.memory[a] else 0;
    forall i | 0 <= i < k
      ensures value(ws[i + 1]) == if StoredAt(a)(es[i]).Some? then StoredAt(a)(es[i]).value else value(ws[i])
    {
      assert Possible(rs, ws[i], es[i]) && ws[i + 1] == Do(rs, ws[i], es[i]);
      Stepwise(ws, sized, 0, i);
    }
    LatestStands(StoredAt(a), value, ws, es, k);
  }

  lemma EventFollows(rs: seq<Region>, w: World, e: Event, st: System.Store)
    requires Safe(rs, w) && Possible(rs, w, e) && CopyFollows(rs, st, w)
    ensures CopyFollows(rs, st, Do(rs, w, e))
  {
    var here: System.Store :| Copied(rs, w, here) && Linked(Moves, st, here);
    var next := here;
    match e {
      case Write(a, value) =>
        next := WriteIsUnseen(rs, w, a, value, here);
        LinkedJoins(Moves, st, here, next);
      case Clear =>
        ClearLeavesBehind(rs, w, here);
      case Load(x) =>
        LoadLeaves(rs, w, x, here);
      case Save(x) =>
        next := SaveIsBack(rs, w, x, here);
        LinkedJoins(Moves, st, here, next);
      case Fetch =>
        FetchTakes(rs, w, here);
        next := System.Fetched(here);
        LinkedOn(Moves, st, here, Fetches, next);
    }
  }

  /** Every run of copying grabs under a migration is a run of the memory device of the handover. */
  lemma CopyRunIsHandover(rs: seq<Region>, ws: seq<World>, es: seq<Event>, st: System.Store, k: nat)
    requires Run(rs, ws, es) && k < |ws| && Safe(rs, ws[0]) && Copied(rs, ws[0], st)
    ensures Safe(rs, ws[k]) && CopyFollows(rs, st, ws[k])
  {
    LinkedToItself<System.Store, Move>(Moves, st);
    var follows := (w: World) => Safe(rs, w) && CopyFollows(rs, st, w);
    forall i | 0 <= i < |ws| - 1 && follows(ws[i]) ensures follows(ws[i + 1]) {
      EventKeeps(rs, ws[i], es[i]);
      EventFollows(rs, ws[i], es[i], st);
    }
    Stepwise(ws, follows, 0, k);
  }

  /** Once nothing is soft-dirty or to be written, the device is the image. */
  lemma CaughtUp(rs: seq<Region>, w: World)
    requires Safe(rs, w) && w.soft == {} && w.pending == {}
    ensures w.prov == Overlay(w.prov, w.memory, rs)
  {
    forall y: nat | y < |w.prov| ensures w.prov[y] == Overlay(w.prov, w.memory, rs)[y] {
      ByteIsFresh(rs, w, y);
    }
  }

  /** So at every mapped offset the device has what the guest stored there last. */
  lemma DeviceHoldsStores(rs: seq<Region>, ws: seq<World>, es: seq<Event>, k: nat, i: nat, a: nat)
    requires Run(rs, ws, es) && Safe(rs, ws[0]) && k < |ws| && ws[k].soft == {} && ws[k].pending == {} && In(rs, i, a)
    ensures a < |ws[0].memory| && Off(rs, i, a) < |ws[k].prov|
    ensures ws[k].prov[Off(rs, i, a)] == Latest(StoredAt(a), es, k, ws[0].memory[a])
  {
    var safe := (w: World) => Safe(rs, w);
    forall j | 0 <= j < k && safe(ws[j]) ensures safe(ws[j + 1]) {
      EventKeeps(rs, ws[j], es[j]);
    }
    Stepwise(ws, safe, 0, k);
    ImageAt(rs, ws[0].prov, ws[0].memory, i, a);
    MemoryIsWritten(rs, ws, es, k, a);
    ImageAt(rs, ws[k].prov, ws[k].memory, i, a);
    assert SafeAt(rs, ws[k], i, a);
  }

  // ----- the grabber's methods as these events -----

  /** The grabber, with the tracker of its device. */
  ghost function View(g: MemoryGrabber, t: Tracker, pending: set<nat>, buffer: map<nat, Byte>): World
    reads g, g.mem, g.prov
  {
    World(g.mem[..], g.softPages, g.prov[..], t, pending, buffer)
  }

  /** The paused part of a grab is the clear. */
  method CollectIsClear(g: MemoryGrabber, ghost t: Tracker) returns (copyData: seq<seq<Range>>)
    requires g.Valid() && Formed(g.regions, View(g, t, {}, map[]))
    modifies g`softPages
    ensures |copyData| == |g.regions| && MemoryGrabber.AllRangesOf(old(g.softPages), g.regions, copyData)
    ensures Possible(g.regions, old(View(g, t, {}, map[])), Clear)
    ensures View(g, t, SoftOffsets(g.regions, old(g.softPages)), map[])
            == Do(g.regions, old(View(g, t, {}, map[])), Clear)
  {
    copyData := g.CollectAndClear();
  }

  /** Writing one of its bytes is the save. */
  method WriteIsSave(g: MemoryGrabber, ghost i: nat, r: Region, a: nat, value: Byte, ghost t: Tracker,
                      ghost pending: set<nat>, ghost buffer: map<nat, Byte>, ghost ahead: set<nat>)
    requires g.Valid() && In(g.regions, i, a) && g.regions[i] == r && g.Covered(ahead)
    requires value == g.mem[a] || Soft(g.softPages, a)
    requires Possible(g.regions, View(g, t, pending, buffer), Save(Off(g.regions, i, a)))
    requires buffer[Off(g.regions, i, a)] == value
    modifies g.prov
    ensures var x := Off(g.regions, i, a);
            View(g, Mark(t, Chunk(x, 1)), pending - {x}, buffer - {x})
            == Do(g.regions, old(View(g, t, pending, buffer)), Save(x))
  {
    g.WriteByte(i, r, a, value, ahead);
  }
}
