/** Direct memory under a migration: the dirty tracker is marked by soft-dirty grabs (runtime.go:668-780) while the
    migration fetches it and reads guest memory itself (runtime.go:139-157). Guest writes, the steps of grabs, fetches
    and reads of single bytes interleave freely, so a fetch may come between the clearing of the soft-dirty bits and
    the marks, and a read any time after its fetch. `tracker` is the direct or the sync tracker; each has its reader. */
module DirectTransfer {
  import opened MemoryImage
  import opened MemoryGrab
  import opened DirectMemory
  import opened Chains

  /** `unmarked` is what the grab in progress has still to mark, `held` what the receiver has, and `owed` the bytes of
      blocks fetched and not read yet. */
  datatype World = World(
    memory: seq<Byte>, soft: set<nat>, tracker: Tracker, unmarked: seq<Chunk>, held: seq<Byte>, owed: multiset<nat>)

  datatype Event =
    | Write(a: nat, value: Byte)
    | Clear(ranges: seq<Chunk>)
    | Mark
    | Fetch
    | Send(x: nat)

  /** The ranges hold exactly the soft-dirty bytes of the regions. */
  ghost predicate Collects(rs: seq<Region>, soft: set<nat>, ranges: seq<Chunk>) {
    && (forall i, a | In(rs, i, a) && Soft(soft, a) :: Found(ranges, Off(rs, i, a)))
    && (forall x: nat | Found(ranges, x) :: exists i, a :: In(rs, i, a) && Soft(soft, a) && Off(rs, i, a) == x)
  }

  ghost predicate Formed(rs: seq<Region>, w: World) {
    && Mapped(rs, |w.memory|, |w.held|) && w.tracker.Tracking? && w.tracker.blockSize > 0
    && forall x | x in w.owed :: x < |w.held|
  }

  ghost predicate Possible(rs: seq<Region>, w: World, e: Event) {
    && Formed(rs, w)
    && match e
       case Write(a, _) => a < |w.memory|
       case Clear(ranges) => w.unmarked == [] && Collects(rs, w.soft, ranges)
       case Mark => w.unmarked != []
       case Fetch => true
       case Send(x) => x in w.owed
  }

  /** The bytes of the device in dirty blocks. */
  function DirtyBytes(t: Tracker, size: nat): set<nat>
    requires TrackerFits(t)
  {
    set x: nat | x < size && DirtyAt(t, x)
  }

  ghost function Do(rs: seq<Region>, w: World, e: Event): World
    requires Possible(rs, w, e)
  {
    match e
    case Write(a, value) => w.(memory := w.memory[a := value], soft := w.soft + {a / PAGE})
    case Clear(ranges) => w.(soft := {}, unmarked := ranges)
    case Mark => w.(tracker := MemoryImage.Mark(w.tracker, w.unmarked[0]), unmarked := w.unmarked[1..])
    case Fetch =>
      w.(tracker := w.tracker.(blocks := {}), owed := w.owed + multiset(DirtyBytes(w.tracker, |w.held|)))
    case Send(x) =>
      w.(held := w.held[x := Overlay(w.held, w.memory, rs)[x]], owed := w.owed - multiset{x})
  }

  // ----- nothing gets lost -----

  ghost predicate Known(rs: seq<Region>, w: World, i: nat, a: nat)
    requires In(rs, i, a) && TrackerFits(w.tracker)
  {
    var x := Off(rs, i, a);
    Soft(w.soft, a) || Found(w.unmarked, x) || DirtyAt(w.tracker, x) || x in w.owed
  }

  ghost predicate Fresh(rs: seq<Region>, w: World, i: nat, a: nat)
    requires In(rs, i, a) && Mapped(rs, |w.memory|, |w.held|)
  {
    w.held[Off(rs, i, a)] == w.memory[a]
  }

  /** A byte the receiver does not have is soft-dirty, about to be marked, dirty, or still to be read. */
  ghost predicate Safe(rs: seq<Region>, w: World) {
    Formed(rs, w) && forall i, a | In(rs, i, a) :: Fresh(rs, w, i, a) || Known(rs, w, i, a)
  }

  lemma WriteKeeps(rs: seq<Region>, w: World, b: nat, value: Byte)
    requires Safe(rs, w) && Possible(rs, w, Write(b, value))
    ensures Safe(rs, Do(rs, w, Write(b, value)))
  {
    var v := Do(rs, w, Write(b, value));
    forall i, a | In(rs, i, a) ensures Fresh(rs, v, i, a) || Known(rs, v, i, a) {
      assert Fresh(rs, w, i, a) || Known(rs, w, i, a);
    }
  }

  lemma ClearKeeps(rs: seq<Region>, w: World, ranges: seq<Chunk>)
    requires Safe(rs, w) && Possible(rs, w, Clear(ranges))
    ensures Safe(rs, Do(rs, w, Clear(ranges)))
  {
    var v := Do(rs, w, Clear(ranges));
    forall i, a | In(rs, i, a) ensures Fresh(rs, v, i, a) || Known(rs, v, i, a) {
      assert Fresh(rs, w, i, a) || Known(rs, w, i, a);
      if Soft(w.soft, a) {
        assert Found(ranges, Off(rs, i, a));
      }
    }
  }

  lemma MarkedOne(t: Tracker, c: Chunk, x: nat)
    requires TrackerFits(t) && t.Tracking? && (DirtyAt(t, x) || Within(c, x))
    ensures DirtyAt(MemoryImage.Mark(t, c), x)
  {
    if Within(c, x) {
      assert x / t.blockSize in BlocksOf(c, t.blockSize);
    }
  }

  lemma MarkKeepsByte(rs: seq<Region>, w: World, i: nat, a: nat)
    requires Formed(rs, w) && w.unmarked != [] && In(rs, i, a) && Known(rs, w, i, a)
    ensures Known(rs, Do(rs, w, Mark), i, a)
  {
    var x, v := Off(rs, i, a), Do(rs, w, Mark);
    if Found(w.unmarked, x) {
      var c :| c in w.unmarked && Within(c, x);
      if c == w.unmarked[0] {
        MarkedOne(w.tracker, c, x);
      } else {
        assert c in v.unmarked;
      }
    } else if DirtyAt(w.tracker, x) {
      MarkedOne(w.tracker, w.unmarked[0], x);
    }
  }

  lemma MarkKeeps(rs: seq<Region>, w: World)
    requires Safe(rs, w) && Possible(rs, w, Mark)
    ensures Safe(rs, Do(rs, w, Mark))
  {
    var v := Do(rs, w, Mark);
    forall i, a | In(rs, i, a) ensures Fresh(rs, v, i, a) || Known(rs, v, i, a) {
      if Known(rs, w, i, a) {
        MarkKeepsByte(rs, w, i, a);
      }
    }
  }

  lemma OffInDevice(rs: seq<Region>, memory: nat, device: nat, i: nat, a: nat)
    requires Mapped(rs, memory, device) && In(rs, i, a)
    ensures a < memory && Off(rs, i, a) < device
  {
    assert RegionFits(rs[i], memory, device);
  }

  lemma FetchKeeps(rs: seq<Region>, w: World)
    requires Safe(rs, w)
    ensures Safe(rs, Do(rs, w, Fetch))
  {
    var v := Do(rs, w, Fetch);
    forall i, a | In(rs, i, a) ensures Fresh(rs, v, i, a) || Known(rs, v, i, a) {
      var x := Off(rs, i, a);
      OffInDevice(rs, |w.memory|, |w.held|, i, a);
      if DirtyAt(w.tracker, x) {
        assert x in DirtyBytes(w.tracker, |w.held|);
      }
      assert Fresh(rs, w, i, a) || Known(rs, w, i, a);
    }
  }

  lemma SentByte(rs: seq<Region>, w: World, x: nat, i: nat, a: nat)
    requires Possible(rs, w, Send(x)) && In(rs, i, a)
    ensures Off(rs, i, a) < |w.held|
    ensures Do(rs, w, Send(x)).held[Off(rs, i, a)] == if Off(rs, i, a) == x then w.memory[a] else w.held[Off(rs, i, a)]
  {
    OffInDevice(rs, |w.memory|, |w.held|, i, a);
    if Off(rs, i, a) == x {
      assert Shows(rs[i], x);
      OverlayShown(w.held, w.memory, rs, i, x);
    }
  }

  lemma SendKeeps(rs: seq<Region>, w: World, x: nat)
    requires Safe(rs, w) && Possible(rs, w, Send(x))
    ensures Safe(rs, Do(rs, w, Send(x)))
  {
    var v := Do(rs, w, Send(x));
    forall i, a | In(rs, i, a) ensures Fresh(rs, v, i, a) || Known(rs, v, i, a) {
      SentByte(rs, w, x, i, a);
      assert Fresh(rs, w, i, a) || Known(rs, w, i, a);
    }
  }

  lemma EventKeeps(rs: seq<Region>, w: World, e: Event)
    requires Safe(rs, w) && Possible(rs, w, e)
    ensures Safe(rs, Do(rs, w, e))
  {
    match e
    case Write(a, value) => WriteKeeps(rs, w, a, value);
    case Clear(ranges) => ClearKeeps(rs, w, ranges);
    case Mark => MarkKeeps(rs, w);
    case Fetch => FetchKeeps(rs, w);
    case Send(x) => SendKeeps(rs, w, x);
  }

  /** Nor is anything sent to a place that guest memory does not show. */
  ghost predicate Apart(rs: seq<Region>, base: seq<Byte>, held: seq<Byte>) {
    && |base| == |held|
    && forall x: nat | x < |held| && (forall i :: 0 <= i < |rs| ==> !Shows(rs[i], x)) :: held[x] == base[x]
  }

  lemma EventKeepsApart(rs: seq<Region>, base: seq<Byte>, w: World, e: Event)
    requires Possible(rs, w, e) && Apart(rs, base, w.held)
    ensures Apart(rs, base, Do(rs, w, e).held)
  {
    if e.Send? {
      forall x: nat | x < |w.held| && (forall i :: 0 <= i < |rs| ==> !Shows(rs[i], x))
        ensures Do(rs, w, e).held[x] == base[x]
      {
        OverlayHidden(w.held, w.memory, rs, x);
      }
    }
  }

  // ----- runs -----

  ghost predicate Run(rs: seq<Region>, ws: seq<World>, es: seq<Event>) {
    && |ws| == |es| + 1
    && forall k | 0 <= k < |es| :: Possible(rs, ws[k], es[k]) && ws[k + 1] == Do(rs, ws[k], es[k])
  }

  /** What an event stores at address `a`. */
  function StoredAt(a: nat): Event -> Option<Byte> {
    (e: Event) => if e.Write? && e.a == a then Some(e.value) else None
  }

  /** Memory is what the guest wrote: at every address the last value stored there, whatever else happened. */
  lemma MemoryIsWritten(rs: seq<Region>, ws: seq<World>, es: seq<Event>, k: nat, a: nat)
    requires Run(rs, ws, es) && k < |ws| && a < |ws[0].memory|
    ensures |ws[k].memory| == |ws[0].memory|
    ensures ws[k].memory[a] == Latest(StoredAt(a), es, k, ws[0].memory[a])
  {
    var size := |ws[0].memory|;
    var sized := (w: World) => |w.memory| == size;
    forall i | 0 <= i < |ws| - 1 && sized(ws[i]) ensures sized(ws[i + 1]) {
      assert Possible(rs, ws[i], es[i]) && ws[i + 1] == Do(rs, ws[i], es[i]);
    }
    Stepwise(ws, sized, 0, k);
    var value := (w: World) => if a < |w.memory| then w.memory[a] else 0;
    forall i | 0 <= i < k
      ensures value(ws[i + 1]) == if StoredAt(a)(es[i]).Some? then StoredAt(a)(es[i]).value else value(ws[i])
    {
      assert Possible(rs, ws[i], es[i]) && ws[i + 1] == Do(rs, ws[i], es[i]);
      Stepwise(ws, sized, 0, i);
    }
    LatestStands(StoredAt(a), value, ws, es, k);
  }

  /** What Resume leaves: the receiver has every byte outside the dirty blocks as it is in memory. */
  lemma StartIsSafe(g: MemoryGrabber, base: seq<Byte>, memory: seq<Byte>, soft: set<nat>, t: Tracker)
    requires Covers(g, base, memory, soft, t) && t.Tracking?
    ensures Safe(g.regions, World(memory, soft, t, [], base, multiset{}))
  {
    var w := World(memory, soft, t, [], base, multiset{});
    forall i: nat, a: nat | In(g.regions, i, a) ensures Fresh(g.regions, w, i, a) || Known(g.regions, w, i, a) {
      assert In(g.regions, i, a);
      assert Agrees(g, base, memory, i, a) || Soft(soft, a) || DirtyAt(t, Off(g.regions, i, a));
    }
  }

  lemma RunKeeps(rs: seq<Region>, ws: seq<World>, es: seq<Event>, k: nat)
    requires Run(rs, ws, es) && Safe(rs, ws[0]) && k < |ws|
    ensures Safe(rs, ws[k]) && Apart(rs, ws[0].held, ws[k].held)
  {
    var p := (w: World) => Safe(rs, w) && Apart(rs, ws[0].held, w.held);
    forall i | 0 <= i < |ws| - 1 && p(ws[i]) ensures p(ws[i + 1]) {
      EventKeeps(rs, ws[i], es[i]);
      EventKeepsApart(rs, ws[0].held, ws[i], es[i]);
    }
    Stepwise(ws, p, 0, k);
  }

  /** Nothing is soft-dirty, waiting to be marked, dirty or still to be read. */
  predicate Settled(w: World) {
    w.soft == {} && w.unmarked == [] && w.tracker.Tracking? && w.tracker.blocks == {} && w.owed == multiset{}
  }

  lemma SettledIsImage(rs: seq<Region>, base: seq<Byte>, w: World)
    requires Safe(rs, w) && Apart(rs, base, w.held) && Settled(w)
    ensures w.held == Overlay(base, w.memory, rs)
  {
    forall i, x: nat | 0 <= i < |rs| && RegionFits(rs[i], |w.memory|, |w.held|) && Shows(rs[i], x)
      ensures w.held[x] == w.memory[rs[i].start + (x - rs[i].offset)]
    {
      var a := rs[i].start + (x - rs[i].offset);
      assert In(rs, i, a) && Off(rs, i, a) == x;
      assert Fresh(rs, w, i, a) || Known(rs, w, i, a);
    }
    assert IsImage(w.held, base, w.memory, rs);
    OverlayIsImage(base, w.memory, rs);
    ImageIsUnique(w.held, Overlay(base, w.memory, rs), base, w.memory, rs);
  }

  /** Whatever the guest did and whenever the grabs, fetches and reads came: once nothing is outstanding, the receiver
      has guest memory on every mapped offset and what it had before elsewhere. */
  lemma ReceiverHoldsMemory(rs: seq<Region>, ws: seq<World>, es: seq<Event>, k: nat)
    requires Run(rs, ws, es) && Safe(rs, ws[0]) && k < |ws| && Settled(ws[k])
    ensures Formed(rs, ws[k]) && |ws[0].held| == |ws[k].held|
    ensures ws[k].held == Overlay(ws[0].held, ws[k].memory, rs)
  {
    RunKeeps(rs, ws, es, k);
    SettledIsImage(rs, ws[0].held, ws[k]);
  }

  /** So at every mapped offset the receiver has what the guest stored there last. */
  lemma ReceiverHoldsStores(rs: seq<Region>, ws: seq<World>, es: seq<Event>, k: nat, i: nat, a: nat)
    requires Run(rs, ws, es) && Safe(rs, ws[0]) && k < |ws| && Settled(ws[k]) && In(rs, i, a)
    ensures a < |ws[0].memory| && Off(rs, i, a) < |ws[k].held|
    ensures ws[k].held[Off(rs, i, a)] == Latest(StoredAt(a), es, k, ws[0].memory[a])
  {
    ReceiverHoldsMemory(rs, ws, es, k);
    OffInDevice(rs, |ws[0].memory|, |ws[0].held|, i, a);
    MemoryIsWritten(rs, ws, es, k, a);
    ImageAt(rs, ws[0].held, ws[k].memory, i, a);
  }

  // ----- the last grab -----

  /** A step that is not the guest's. */
  ghost function Quietly(rs: seq<Region>): (World, Event, World) -> bool {
    (w: World, e: Event, v: World) => Possible(rs, w, e) && !e.Write? && v == Do(rs, w, e)
  }

  lemma {:induction false} MarksAll(rs: seq<Region>, w: World) returns (v: World)
    requires Formed(rs, w)
    ensures Linked(Quietly(rs), w, v) && Formed(rs, v) && v == w.(unmarked := [], tracker := v.tracker)
    decreases |w.unmarked|
  {
    LinkedToItself<World, Event>(Quietly(rs), w);
    if w.unmarked == [] {
      v := w;
    } else {
      var u := Do(rs, w, Mark);
      LinkedOn(Quietly(rs), w, w, Mark, u);
      v := MarksAll(rs, u);
      LinkedJoins(Quietly(rs), w, u, v);
    }
  }

  lemma {:induction false} SendsAll(rs: seq<Region>, w: World) returns (v: World)
    requires Formed(rs, w)
    ensures Linked(Quietly(rs), w, v) && Formed(rs, v) && v == w.(held := v.held, owed := multiset{})
    decreases |w.owed|
  {
    LinkedToItself<World, Event>(Quietly(rs), w);
    if w.owed == multiset{} {
      v := w;
    } else {
      var x :| x in w.owed;
      var u := Do(rs, w, Send(x));
      assert w.owed == u.owed + multiset{x};
      LinkedOn(Quietly(rs), w, w, Send(x), u);
      v := SendsAll(rs, u);
      LinkedJoins(Quietly(rs), w, u, v);
    }
  }

  /** With the guest stopped, one grab, one fetch and the reads it owes settle everything. */
  lemma LastGrabSettles(rs: seq<Region>, w: World, ranges: seq<Chunk>) returns (v: World)
    requires Safe(rs, w) && w.unmarked == [] && Collects(rs, w.soft, ranges)
    ensures Linked(Quietly(rs), w, v) && Settled(v) && v.memory == w.memory
    ensures v.held == Overlay(w.held, w.memory, rs)
  {
    var step := Quietly(rs);
    LinkedToItself<World, Event>(step, w);
    var w1 := Do(rs, w, Clear(ranges));
    LinkedOn(step, w, w, Clear(ranges), w1);
    var w2 := MarksAll(rs, w1);
    var w3 := Do(rs, w2, Fetch);
    LinkedJoins(step, w, w1, w2);
    LinkedOn(step, w, w2, Fetch, w3);
    v := SendsAll(rs, w3);
    LinkedJoins(step, w, w3, v);
    QuietlyKeeps(rs, w.held, w, v);
    SettledIsImage(rs, w.held, v);
  }

  lemma QuietlyKeeps(rs: seq<Region>, base: seq<Byte>, w: World, v: World)
    requires Safe(rs, w) && Apart(rs, base, w.held) && Linked(Quietly(rs), w, v)
    ensures Safe(rs, v) && Apart(rs, base, v.held)
  {
    var p := (x: World) => Safe(rs, x) && Apart(rs, base, x.held);
    forall x: World, e: Event, y: World | p(x) && Quietly(rs)(x, e, y) ensures p(y) {
      EventKeeps(rs, x, e);
      EventKeepsApart(rs, base, x, e);
    }
    LinkedKeeps(Quietly(rs), p, w, v);
  }

  // ----- the grabber's methods as these events -----

  /** The grabber and one reader of its direct tracker. */
  ghost function View(g: MemoryGrabber, unmarked: seq<Chunk>, held: seq<Byte>, owed: multiset<nat>): World
    reads g, g.mem
  {
    World(g.mem[..], g.softPages, g.trackers.direct, unmarked, held, owed)
  }

  lemma CollectedRanges(g: MemoryGrabber, soft: set<nat>, copyData: seq<seq<Range>>)
    requires |copyData| == |g.regions| && MemoryGrabber.AllRangesOf(soft, g.regions, copyData)
    ensures forall i :: 0 <= i < |copyData| ==> MemoryGrabber.RangesFit(g.regions[i], copyData[i])
    ensures Collects(g.regions, soft, MemoryGrabber.AllRangeChunks(g.regions, copyData))
  {
    var ranges := MemoryGrabber.AllRangeChunks(g.regions, copyData);
    forall i: nat, a: nat | In(g.regions, i, a) && Soft(soft, a) ensures Found(ranges, Off(g.regions, i, a)) {
      assert In(g.regions, i, a) && MemoryGrabber.InSome(copyData[i], a);
      g.SoftIsMarked(copyData, i, a);
    }
    forall x: nat | Found(ranges, x)
      ensures exists i, a :: In(g.regions, i, a) && Soft(soft, a) && Off(g.regions, i, a) == x
    {
      var c :| c in ranges && Within(c, x);
      var i, a := g.MarkedIsCollected(copyData, c, x);
      assert In(g.regions, i, a) && Soft(soft, a) && Off(g.regions, i, a) == x;
    }
  }

  /** The paused part of a grab is the Clear of the ranges it goes on to mark. */
  method CollectIsClear(g: MemoryGrabber, ghost held: seq<Byte>, ghost owed: multiset<nat>)
    returns (copyData: seq<seq<Range>>, ghost ranges: seq<Chunk>)
    requires g.Valid() && Formed(g.regions, View(g, [], held, owed))
    modifies g`softPages
    ensures |copyData| == |g.regions|
    ensures forall i :: 0 <= i < |copyData| ==> MemoryGrabber.RangesFit(g.regions[i], copyData[i])
    ensures ranges == MemoryGrabber.AllRangeChunks(g.regions, copyData)
    ensures Possible(g.regions, old(View(g, [], held, owed)), Clear(ranges))
    ensures View(g, ranges, held, owed) == Do(g.regions, old(View(g, [], held, owed)), Clear(ranges))
  {
    ghost var soft := g.softPages;
    copyData := g.CollectAndClear();
    CollectedRanges(g, soft, copyData);
    ranges := MemoryGrabber.AllRangeChunks(g.regions, copyData);
  }

  /** MarkDirty on the next range is Mark. */
  method MarkIsMark(g: MemoryGrabber, ghost unmarked: seq<Chunk>, c: Chunk, ghost held: seq<Byte>,
                    ghost owed: multiset<nat>)
    requires g.Valid() && unmarked != [] && unmarked[0] == c && Formed(g.regions, View(g, unmarked, held, owed))
    modifies g`trackers
    ensures Possible(g.regions, old(View(g, unmarked, held, owed)), Mark)
    ensures View(g, unmarked[1..], held, owed) == Do(g.regions, old(View(g, unmarked, held, owed)), Mark)
  {
    MarkOne(g.trackers, c);
    g.MarkDirty(c);
  }
}
