/** Direct memory under a migration when grabs compare memory with the provider (runtime.go:547-665): grabs, fetches of
    the tracker and reads of single bytes come in any order while the guest runs, then the guest stops and one grab, one
    fetch and the reads still owed follow. A grab pauses the process, so it sees one memory. Unlike the soft-dirty grabs
    (DirectTransfer), these do not serve every schedule, and the module says which ones they serve. */
module FailsafeTransfer {
  import opened MemoryImage
  import opened MemoryGrab
  import opened DirectMemory
  import opened Chains
  import Reader = DirectTransfer

  datatype Settings = Settings(regions: seq<Region>, blockSize: nat, updateDirty: bool, updateMemory: bool)

  datatype Op = Grab | Fetch | Send(x: nat)

  /** `held` is what the receiver has, `owed` the bytes of blocks fetched and not read yet. */
  datatype State = State(prov: seq<Byte>, tracker: Tracker, held: seq<Byte>, owed: multiset<nat>)

  ghost predicate Formed(c: Settings, s: State, size: nat) {
    && c.blockSize > 0 && Mapped(c.regions, size, |s.prov|) && |s.held| == |s.prov|
    && s.tracker.Tracking? && s.tracker.blockSize > 0
    && forall x | x in s.owed :: x < |s.held|
  }

  ghost function Grabbed(c: Settings, s: State, memory: seq<Byte>): (t: State)
    requires Formed(c, s, |memory|)
    ensures Formed(c, t, |memory|)
  {
    var marks := AllChunks(s.prov, memory, c.regions, c.blockSize);
    MarkAllCovers(s.tracker, marks);
    s.(tracker := if c.updateDirty then MarkAll(s.tracker, marks) else s.tracker,
       prov := if c.updateMemory then Overlay(s.prov, memory, c.regions) else s.prov)
  }

  function Fetched(s: State): State
    requires s.tracker.Tracking? && s.tracker.blockSize > 0
  {
    s.(tracker := s.tracker.(blocks := {}), owed := s.owed + multiset(Reader.DirtyBytes(s.tracker, |s.held|)))
  }

  /** A read of a byte that is not owed does not happen. */
  ghost function Sent(c: Settings, s: State, memory: seq<Byte>, x: nat): State
    requires Formed(c, s, |memory|)
  {
    if x in s.owed then
      s.(held := s.held[x := Overlay(s.held, memory, c.regions)[x]], owed := s.owed - multiset{x})
    else s
  }

  ghost function Do(c: Settings, s: State, op: Op, memory: seq<Byte>): (t: State)
    requires Formed(c, s, |memory|)
    ensures Formed(c, t, |memory|)
  {
    match op
    case Grab => Grabbed(c, s, memory)
    case Fetch => Fetched(s)
    case Send(x) => Sent(c, s, memory, x)
  }

  /** The memories the operations find, one each, and the last one the guest leaves. */
  predicate Memories(mems: seq<seq<Byte>>, ops: seq<Op>, size: nat) {
    |mems| == |ops| + 1 && forall k :: 0 <= k < |mems| ==> |mems[k]| == size
  }

  ghost function Steps(c: Settings, ops: seq<Op>, mems: seq<seq<Byte>>): (State, nat) -> State {
    (s: State, k: nat) => if k < |ops| && k < |mems| && Formed(c, s, |mems[k]|) then Do(c, s, ops[k], mems[k]) else s
  }

  ghost function After(c: Settings, s: State, ops: seq<Op>, mems: seq<seq<Byte>>, k: nat): State {
    Fold(Steps(c, ops, mems), s, k)
  }

  /** The last grab and fetch, and every read still owed. */
  ghost function Settled(c: Settings, s: State, memory: seq<Byte>): (held: seq<Byte>)
    requires Formed(c, s, |memory|)
    ensures |held| == |s.held|
  {
    var t := Fetched(Grabbed(c, s, memory));
    seq(|t.held|, x requires 0 <= x < |t.held| =>
      if x in t.owed then Overlay(t.held, memory, c.regions)[x] else t.held[x])
  }

  ghost predicate RightAt(c: Settings, s: State, memory: seq<Byte>, x: nat)
    requires Formed(c, s, |memory|) && x < |s.held|
  {
    Settled(c, s, memory)[x] == Overlay(s.held, memory, c.regions)[x]
  }

  /** The receiver ends up with guest memory on every mapped offset. */
  ghost predicate Right(c: Settings, s: State, ops: seq<Op>, mems: seq<seq<Byte>>, size: nat)
    requires Formed(c, s, size) && Memories(mems, ops, size)
  {
    forall x: nat | x < |s.held| && Shown(c.regions, x) :: EndsRight(c, s, ops, mems, size, x)
  }

  ghost predicate EndsRight(c: Settings, s: State, ops: seq<Op>, mems: seq<seq<Byte>>, size: nat, x: nat)
    requires Formed(c, s, size) && Memories(mems, ops, size)
  {
    var t := After(c, s, ops, mems, |ops|);
    Formed(c, t, size) && x < |t.held| && RightAt(c, t, mems[|ops|], x)
  }

  /** Some time after a dirty mark came a fetch, and some time after that a read: the read may have been too early. */
  predicate Early(c: Settings, t: Tracker, ops: seq<Op>, x: nat)
    requires TrackerFits(t)
  {
    exists j, k :: 0 <= j < k < |ops| && ops[j] == Fetch && ops[k] == Send(x) && MarkedBy(c, t, ops, j, x)
  }

  predicate MarkedBy(c: Settings, t: Tracker, ops: seq<Op>, j: nat, x: nat)
    requires TrackerFits(t) && j <= |ops|
  {
    DirtyAt(t, x) || (c.updateDirty && Grab in ops[..j])
  }

  /** The schedules that can lose byte `x`. */
  predicate Loses(c: Settings, t: Tracker, ops: seq<Op>, x: nat)
    requires TrackerFits(t)
  {
    Early(c, t, ops, x) || (!c.updateDirty && !DirtyAt(t, x))
  }

  /** Before the first operation the receiver has what the provider has, except in dirty blocks. */
  ghost predicate Start(c: Settings, s: State, size: nat) {
    && Formed(c, s, size) && s.owed == multiset{}
    && forall x: nat | x < |s.held| && Shown(c.regions, x) :: s.held[x] == s.prov[x] || DirtyAt(s.tracker, x)
  }

  // ----- one byte -----

  lemma SameView(rs: seq<Region>, p: seq<Byte>, q: seq<Byte>, memory: seq<Byte>, x: nat)
    requires |p| == |q| && Mapped(rs, |memory|, |p|) && Shown(rs, x)
    ensures x < |p| && Overlay(p, memory, rs)[x] == Overlay(q, memory, rs)[x]
  {
    var i :| 0 <= i < |rs| && Shows(rs[i], x);
    assert RegionFits(rs[i], |memory|, |p|);
    OverlayShown(p, memory, rs, i, x);
    OverlayShown(q, memory, rs, i, x);
  }

  /** A grab marks a byte that differs, and lets no mark go. */
  lemma GrabMarks(c: Settings, s: State, memory: seq<Byte>, x: nat)
    requires Formed(c, s, |memory|) && Shown(c.regions, x) && x < |s.prov| && c.updateDirty
    requires s.prov[x] != Overlay(s.prov, memory, c.regions)[x] || DirtyAt(s.tracker, x)
    ensures DirtyAt(Grabbed(c, s, memory).tracker, x)
  {
    ComparedByte(s.prov, memory, c.regions, c.blockSize, s.tracker, x);
  }

  lemma FetchMoves(s: State, x: nat)
    requires s.tracker.Tracking? && s.tracker.blockSize > 0 && x < |s.held|
    ensures !DirtyAt(Fetched(s).tracker, x)
    ensures Fetched(s).owed[x] == s.owed[x] + if DirtyAt(s.tracker, x) then 1 else 0
  {
    assert x in Reader.DirtyBytes(s.tracker, |s.held|) <==> DirtyAt(s.tracker, x);
  }

  lemma SendMoves(c: Settings, s: State, memory: seq<Byte>, y: nat, x: nat)
    requires Formed(c, s, |memory|) && x < |s.held|
    ensures var t := Sent(c, s, memory, y);
            && Formed(c, t, |memory|) && t.prov == s.prov && t.tracker == s.tracker
            && t.held[x] == (if y == x && x in s.owed then Overlay(s.held, memory, c.regions)[x] else s.held[x])
            && t.owed[x] == if y == x && x in s.owed then s.owed[x] - 1 else s.owed[x]
  {
  }

  // ----- schedules that lose nothing -----

  /** Dirty or owed, or the receiver has what the next comparison compares with. */
  ghost predicate SafeAt(c: Settings, s: State, x: nat)
    requires x < |s.held| == |s.prov| && TrackerFits(s.tracker)
  {
    DirtyAt(s.tracker, x) || x in s.owed || (c.updateDirty && s.held[x] == s.prov[x])
  }

  /** A byte is dirty or owed only if the schedule had it marked. */
  ghost predicate Explained(c: Settings, t: Tracker, ops: seq<Op>, s: State, k: nat, x: nat)
    requires TrackerFits(t) && TrackerFits(s.tracker) && k <= |ops|
  {
    && (DirtyAt(s.tracker, x) ==> MarkedBy(c, t, ops, k, x))
    && (x in s.owed ==> exists j :: 0 <= j < k && ops[j] == Fetch && MarkedBy(c, t, ops, j, x))
  }

  lemma GrabKeepsSafe(c: Settings, s: State, memory: seq<Byte>, x: nat)
    requires Formed(c, s, |memory|) && Shown(c.regions, x) && x < |s.held| && SafeAt(c, s, x)
    ensures SafeAt(c, Grabbed(c, s, memory), x)
  {
    if c.updateDirty && (s.prov[x] != Overlay(s.prov, memory, c.regions)[x] || DirtyAt(s.tracker, x)) {
      GrabMarks(c, s, memory, x);
    }
  }

  ghost predicate GoodAt(c: Settings, t: Tracker, ops: seq<Op>, s: State, size: nat, k: nat, x: nat)
    requires TrackerFits(t)
  {
    && k <= |ops| && Formed(c, s, size) && x < |s.held| && SafeAt(c, s, x) && Explained(c, t, ops, s, k, x)
  }

  lemma GrabIsGood(c: Settings, t: Tracker, s: State, ops: seq<Op>, memory: seq<Byte>, k: nat, x: nat)
    requires TrackerFits(t) && GoodAt(c, t, ops, s, |memory|, k, x) && Shown(c.regions, x)
    requires k < |ops| && ops[k] == Grab
    ensures GoodAt(c, t, ops, Grabbed(c, s, memory), |memory|, k + 1, x)
  {
    assert ops[..k + 1] == ops[..k] + [ops[k]];
    GrabKeepsSafe(c, s, memory, x);
  }

  lemma FetchIsGood(c: Settings, t: Tracker, s: State, ops: seq<Op>, size: nat, k: nat, x: nat)
    requires TrackerFits(t) && GoodAt(c, t, ops, s, size, k, x) && k < |ops| && ops[k] == Fetch
    ensures GoodAt(c, t, ops, Fetched(s), size, k + 1, x)
  {
    assert ops[..k + 1] == ops[..k] + [ops[k]];
    FetchMoves(s, x);
  }

  lemma SendIsGood(c: Settings, t: Tracker, s: State, ops: seq<Op>, memory: seq<Byte>, k: nat, y: nat, x: nat)
    requires TrackerFits(t) && GoodAt(c, t, ops, s, |memory|, k, x) && !Early(c, t, ops, x)
    requires k < |ops| && ops[k] == Send(y)
    ensures GoodAt(c, t, ops, Sent(c, s, memory, y), |memory|, k + 1, x)
  {
    assert ops[..k + 1] == ops[..k] + [ops[k]];
  }

  lemma StepIsGood(c: Settings, t: Tracker, s: State, ops: seq<Op>, memory: seq<Byte>, k: nat, x: nat)
    requires TrackerFits(t) && GoodAt(c, t, ops, s, |memory|, k, x) && Shown(c.regions, x) && !Early(c, t, ops, x)
    requires k < |ops|
    ensures GoodAt(c, t, ops, Do(c, s, ops[k], memory), |memory|, k + 1, x)
  {
    match ops[k]
    case Grab => GrabIsGood(c, t, s, ops, memory, k, x);
    case Fetch => FetchIsGood(c, t, s, ops, |memory|, k, x);
    case Send(y) => SendIsGood(c, t, s, ops, memory, k, y, x);
  }

  lemma RunIsGood(c: Settings, s: State, ops: seq<Op>, mems: seq<seq<Byte>>, size: nat, x: nat)
    requires Start(c, s, size) && Memories(mems, ops, size)
    requires x < |s.held| && Shown(c.regions, x) && !Loses(c, s.tracker, ops, x)
    ensures GoodAt(c, s.tracker, ops, After(c, s, ops, mems, |ops|), size, |ops|, x)
  {
    var step := Steps(c, ops, mems);
    var good := (t: State, k: nat) => GoodAt(c, s.tracker, ops, t, size, k, x);
    forall t: State, k: nat | k < |ops| && good(t, k) ensures good(step(t, k), k + 1) {
      StepIsGood(c, s.tracker, t, ops, mems[k], k, x);
    }
    FoldKeeps(step, good, s, |ops|);
  }

  lemma SafeEndsRight(c: Settings, s: State, memory: seq<Byte>, x: nat)
    requires Formed(c, s, |memory|) && Shown(c.regions, x) && x < |s.held| && SafeAt(c, s, x)
    ensures RightAt(c, s, memory, x)
  {
    var t := Grabbed(c, s, memory);
    GrabKeepsSafe(c, s, memory, x);
    FetchMoves(t, x);
    if x !in Fetched(t).owed && s.prov[x] != Overlay(s.prov, memory, c.regions)[x] {
      GrabMarks(c, s, memory, x);
    }
    SameView(c.regions, s.held, s.prov, memory, x);
  }

  lemma NothingLost(c: Settings, s: State, ops: seq<Op>, mems: seq<seq<Byte>>, size: nat)
    requires Start(c, s, size) && Memories(mems, ops, size)
    requires forall x: nat | x < |s.held| && Shown(c.regions, x) :: !Loses(c, s.tracker, ops, x)
    ensures Right(c, s, ops, mems, size)
  {
    forall x: nat | x < |s.held| && Shown(c.regions, x) ensures EndsRight(c, s, ops, mems, size, x) {
      RunIsGood(c, s, ops, mems, size, x);
      SafeEndsRight(c, After(c, s, ops, mems, |ops|), mems[|ops|], x);
    }
  }

  // ----- guests that show what a schedule loses -----

  /** Guest memory that shows `view` on every mapped offset. */
  ghost function MemoryOf(rs: seq<Region>, view: seq<Byte>, size: nat): (memory: seq<Byte>)
    ensures |memory| == size
  {
    seq(size, a requires 0 <= a < size => ByteOf(rs, view, a))
  }

  ghost function ByteOf(rs: seq<Region>, view: seq<Byte>, a: nat): Byte {
    if i: nat :| In(rs, i, a) && Off(rs, i, a) < |view| then view[Off(rs, i, a)] else 0
  }

  lemma MemoryShows(rs: seq<Region>, prov: seq<Byte>, view: seq<Byte>, size: nat)
    requires |prov| == |view| && Mapped(rs, size, |view|)
    requires forall x: nat | x < |prov| && !Shown(rs, x) :: view[x] == prov[x]
    ensures Overlay(prov, MemoryOf(rs, view, size), rs) == view
  {
    var memory := MemoryOf(rs, view, size);
    MemoryIsImage(rs, prov, view, size);
    OverlayIsImage(prov, memory, rs);
    ImageIsUnique(Overlay(prov, memory, rs), view, prov, memory, rs);
  }

  lemma MemoryIsImage(rs: seq<Region>, prov: seq<Byte>, view: seq<Byte>, size: nat)
    requires |prov| == |view| && Mapped(rs, size, |view|)
    requires forall x: nat | x < |prov| && !Shown(rs, x) :: view[x] == prov[x]
    ensures IsImage(view, prov, MemoryOf(rs, view, size), rs)
  {
    var memory := MemoryOf(rs, view, size);
    forall i, x: nat | 0 <= i < |rs| && RegionFits(rs[i], |memory|, |view|) && Shows(rs[i], x)
      ensures view[x] == memory[rs[i].start + (x - rs[i].offset)]
    {
      ByteIsShown(rs, view, size, i, x);
    }
  }

  lemma ByteIsShown(rs: seq<Region>, view: seq<Byte>, size: nat, i: nat, x: nat)
    requires Mapped(rs, size, |view|) && i < |rs| && Shows(rs[i], x)
    ensures RegionFits(rs[i], size, |view|) && ByteOf(rs, view, rs[i].start + (x - rs[i].offset)) == view[x]
  {
    var a := rs[i].start + (x - rs[i].offset);
    assert RegionFits(rs[i], size, |view|);
    assert In(rs, i, a) && Off(rs, i, a) == x;
    assert forall j: nat | In(rs, j, a) :: j == i;
  }

  lemma NothingFound(prov: seq<Byte>, memory: seq<Byte>, rs: seq<Region>, blockSize: nat)
    requires blockSize > 0 && Mapped(rs, |memory|, |prov|) && Overlay(prov, memory, rs) == prov
    ensures AllChunks(prov, memory, rs, blockSize) == []
  {
    var marks := AllChunks(prov, memory, rs, blockSize);
    AllChunksAreExact(prov, memory, rs, blockSize);
    if marks != [] {
      assert marks[0] in marks && Justified(marks[0], prov, memory, rs);
      var i, x: nat :| 0 <= i < |rs| && Within(marks[0], x) && Differs(prov, memory, rs[i], x);
      OverlayShown(prov, memory, rs, i, x);
    }
  }

  /** A grab that finds memory as the provider is does nothing. */
  lemma IdleGrab(c: Settings, s: State, memory: seq<Byte>)
    requires Formed(c, s, |memory|) && Overlay(s.prov, memory, c.regions) == s.prov
    ensures Grabbed(c, s, memory) == s
  {
    NothingFound(s.prov, memory, c.regions, c.blockSize);
  }

  function Other(v: Byte): Byte {
    if v == 0 then 1 else 0
  }

  /** A byte is changed at grab `i`, or has been dirty from the start if `i` is negative, fetched by `j` and read by
      `k`. */
  datatype Loss = Loss(x: nat, i: int, j: nat, k: nat)

  ghost predicate Happens(c: Settings, s: State, ops: seq<Op>, l: Loss) {
    && s.tracker.Tracking? && s.tracker.blockSize > 0
    && l.x < |s.held| == |s.prov| && Shown(c.regions, l.x) && -1 <= l.i < l.j < l.k < |ops|
    && (if l.i < 0 then DirtyAt(s.tracker, l.x) else c.updateDirty && !DirtyAt(s.tracker, l.x) && ops[l.i] == Grab)
    && (forall n | 0 <= n < l.i :: ops[n] != Grab)
    && ops[l.j] == Fetch && (forall n | l.i < n < l.j :: ops[n] != Fetch)
    && ops[l.k] == Send(l.x) && forall n | l.j < n < l.k :: ops[n] != Send(l.x)
  }

  lemma Next(ops: seq<Op>, op: Op, from: nat, some: nat) returns (n: nat)
    requires from <= some < |ops| && ops[some] == op
    ensures from <= n <= some && ops[n] == op && forall m | from <= m < n :: ops[m] != op
  {
    n := from;
    while ops[n] != op
      invariant from <= n <= some && forall m | from <= m < n :: ops[m] != op
      decreases some - n
    {
      n := n + 1;
    }
  }

  lemma EarlyHappens(c: Settings, s: State, ops: seq<Op>, size: nat, x: nat) returns (l: Loss)
    requires Start(c, s, size) && x < |s.held| && Shown(c.regions, x) && Early(c, s.tracker, ops, x)
    ensures Happens(c, s, ops, l) && l.x == x
  {
    var j, k :| 0 <= j < k < |ops| && ops[j] == Fetch && ops[k] == Send(x) && MarkedBy(c, s.tracker, ops, j, x);
    var i: int := -1;
    if !DirtyAt(s.tracker, x) {
      var n :| 0 <= n < j && ops[..j][n] == Grab;
      i := Next(ops, Grab, 0, n);
    }
    var fetch := Next(ops, Fetch, i + 1, j);
    var read := Next(ops, Send(x), fetch + 1, k);
    l := Loss(x, i, fetch, read);
  }

  /** What the byte is outside the read, and in the provider once the change is grabbed. */
  function Usual(c: Settings, p: Byte, i: int): Byte {
    if c.updateMemory && 0 <= i then Other(p) else p
  }

  /** The byte at each operation: changed for the grab and for the read only. */
  function Value(c: Settings, p: Byte, l: Loss, n: nat): Byte {
    if n == l.i then Other(p)
    else if n == l.k then (if Usual(c, p, l.i) == p then Other(p) else p)
    else Usual(c, p, l.i)
  }

  ghost function ViewAt(c: Settings, s: State, l: Loss, n: nat): seq<Byte>
    requires l.x < |s.prov|
  {
    s.prov[l.x := Value(c, s.prov[l.x], l, n)]
  }

  ghost function Guests(c: Settings, s: State, l: Loss, count: nat, size: nat): seq<seq<Byte>>
    requires l.x < |s.prov|
  {
    seq(count, n requires 0 <= n < count => MemoryOf(c.regions, ViewAt(c, s, l, n), size))
  }

  /** How the byte stands before operation `n`. */
  ghost predicate Stands(c: Settings, s: State, l: Loss, t: State, size: nat, n: nat)
    requires l.x < |s.prov|
  {
    && Formed(c, t, size) && |t.prov| == |s.prov|
    && t.prov == s.prov[l.x := if n <= l.i then s.prov[l.x] else Usual(c, s.prov[l.x], l.i)]
    && (DirtyAt(t.tracker, l.x) <==> l.i < n <= l.j)
    && t.owed[l.x] == (if l.j < n <= l.k then 1 else 0)
    && (l.k < n ==> t.held[l.x] == Value(c, s.prov[l.x], l, l.k))
  }

  lemma ViewShows(c: Settings, s: State, l: Loss, t: State, size: nat, n: nat)
    requires l.x < |s.prov| && Shown(c.regions, l.x) && Stands(c, s, l, t, size, n)
    ensures Overlay(t.prov, MemoryOf(c.regions, ViewAt(c, s, l, n), size), c.regions) == ViewAt(c, s, l, n)
    ensures Overlay(t.held, MemoryOf(c.regions, ViewAt(c, s, l, n), size), c.regions)[l.x] ==
            Value(c, s.prov[l.x], l, n)
  {
    var view := ViewAt(c, s, l, n);
    MemoryShows(c.regions, t.prov, view, size);
    SameView(c.regions, t.prov, t.held, MemoryOf(c.regions, view, size), l.x);
  }

  lemma GrabStands(c: Settings, s: State, l: Loss, ops: seq<Op>, t: State, size: nat, n: nat)
    requires Happens(c, s, ops, l) && Stands(c, s, l, t, size, n) && n < |ops| && ops[n] == Grab
    ensures Stands(c, s, l, Grabbed(c, t, MemoryOf(c.regions, ViewAt(c, s, l, n), size)), size, n + 1)
  {
    var memory := MemoryOf(c.regions, ViewAt(c, s, l, n), size);
    ViewShows(c, s, l, t, size, n);
    if n == l.i {
      GrabMarks(c, t, memory, l.x);
    } else {
      IdleGrab(c, t, memory);
    }
  }

  lemma FetchStands(c: Settings, s: State, l: Loss, ops: seq<Op>, t: State, size: nat, n: nat)
    requires Happens(c, s, ops, l) && Stands(c, s, l, t, size, n) && n < |ops| && ops[n] == Fetch
    ensures Stands(c, s, l, Fetched(t), size, n + 1)
  {
    FetchMoves(t, l.x);
  }

  lemma SendStands(c: Settings, s: State, l: Loss, ops: seq<Op>, t: State, size: nat, n: nat, y: nat)
    requires Happens(c, s, ops, l) && Stands(c, s, l, t, size, n) && n < |ops| && ops[n] == Send(y)
    ensures Stands(c, s, l, Sent(c, t, MemoryOf(c.regions, ViewAt(c, s, l, n), size), y), size, n + 1)
  {
    ViewShows(c, s, l, t, size, n);
    SendMoves(c, t, MemoryOf(c.regions, ViewAt(c, s, l, n), size), y, l.x);
  }

  lemma StepStands(c: Settings, s: State, l: Loss, ops: seq<Op>, t: State, size: nat, n: nat)
    requires Happens(c, s, ops, l) && Stands(c, s, l, t, size, n) && n < |ops|
    ensures Stands(c, s, l, Do(c, t, ops[n], MemoryOf(c.regions, ViewAt(c, s, l, n), size)), size, n + 1)
  {
    match ops[n]
    case Grab => GrabStands(c, s, l, ops, t, size, n);
    case Fetch => FetchStands(c, s, l, ops, t, size, n);
    case Send(y) => SendStands(c, s, l, ops, t, size, n, y);
  }

  lemma RunStands(c: Settings, s: State, l: Loss, ops: seq<Op>, size: nat)
    requires Start(c, s, size) && Happens(c, s, ops, l)
    ensures Stands(c, s, l, After(c, s, ops, Guests(c, s, l, |ops| + 1, size), |ops|), size, |ops|)
  {
    var mems := Guests(c, s, l, |ops| + 1, size);
    var step := Steps(c, ops, mems);
    var stands := (t: State, n: nat) => Stands(c, s, l, t, size, n);
    forall t: State, n: nat | n < |ops| && stands(t, n) ensures stands(step(t, n), n + 1) {
      StepStands(c, s, l, ops, t, size, n);
    }
    FoldKeeps(step, stands, s, |ops|);
  }

  /** After the early read nothing marks the byte again. */
  lemma StandsEndsWrong(c: Settings, s: State, l: Loss, ops: seq<Op>, t: State, size: nat)
    requires Happens(c, s, ops, l) && Stands(c, s, l, t, size, |ops|)
    ensures !RightAt(c, t, MemoryOf(c.regions, ViewAt(c, s, l, |ops|), size), l.x)
  {
    ViewShows(c, s, l, t, size, |ops|);
    IdleGrab(c, t, MemoryOf(c.regions, ViewAt(c, s, l, |ops|), size));
    FetchMoves(t, l.x);
  }

  lemma EarlyIsLost(c: Settings, s: State, ops: seq<Op>, size: nat, x: nat) returns (mems: seq<seq<Byte>>)
    requires Start(c, s, size) && x < |s.held| && Shown(c.regions, x) && Early(c, s.tracker, ops, x)
    ensures Memories(mems, ops, size) && !EndsRight(c, s, ops, mems, size, x)
  {
    var l := EarlyHappens(c, s, ops, size, x);
    mems := Guests(c, s, l, |ops| + 1, size);
    RunStands(c, s, l, ops, size);
    StandsEndsWrong(c, s, l, ops, After(c, s, ops, mems, |ops|), size);
  }

  /** Without the setting no grab marks, and what no mark shows is never read. */
  ghost predicate Unread(c: Settings, s: State, t: State, size: nat, x: nat)
    requires x < |s.held|
  {
    Formed(c, t, size) && |t.held| == |s.held| && !DirtyAt(t.tracker, x) && x !in t.owed && t.held[x] == s.held[x]
  }

  lemma StepUnread(c: Settings, s: State, t: State, op: Op, memory: seq<Byte>, x: nat)
    requires !c.updateDirty && x < |s.held| && Unread(c, s, t, |memory|, x)
    ensures Unread(c, s, Do(c, t, op, memory), |memory|, x)
  {
    if op == Fetch {
      FetchMoves(t, x);
    }
  }

  lemma UnmarkedIsLost(c: Settings, s: State, ops: seq<Op>, size: nat, x: nat) returns (mems: seq<seq<Byte>>)
    requires Start(c, s, size) && x < |s.held| && Shown(c.regions, x) && !c.updateDirty && !DirtyAt(s.tracker, x)
    ensures Memories(mems, ops, size) && !EndsRight(c, s, ops, mems, size, x)
  {
    var view := s.prov[x := Other(s.held[x])];
    var memory := MemoryOf(c.regions, view, size);
    mems := seq(|ops| + 1, n => memory);
    var step := Steps(c, ops, mems);
    var unread := (t: State, n: nat) => Unread(c, s, t, size, x);
    forall t: State, n: nat | n < |ops| && unread(t, n) ensures unread(step(t, n), n + 1) {
      StepUnread(c, s, t, ops[n], memory, x);
    }
    FoldKeeps(step, unread, s, |ops|);
    var t := After(c, s, ops, mems, |ops|);
    MemoryShows(c.regions, s.prov, view, size);
    SameView(c.regions, s.prov, t.held, memory, x);
    FetchMoves(Grabbed(c, t, memory), x);
  }

  // ----- exactly when -----

  /** Which schedules the failsafe grabs serve, whatever the guest does: those in which no mapped byte is read between
      the operations after a fetch that followed a grab, or that found it dirty from the start. With the dirty marks
      off, every mapped byte must be dirty from the start too. Whether the grabs also copy does not matter. */
  lemma RightExactlyWhenNothingIsLost(c: Settings, s: State, ops: seq<Op>, size: nat)
    requires Start(c, s, size)
    ensures (forall mems | Memories(mems, ops, size) :: Right(c, s, ops, mems, size)) <==>
            (forall x: nat | x < |s.held| && Shown(c.regions, x) :: !Loses(c, s.tracker, ops, x))
  {
    if x: nat :| x < |s.held| && Shown(c.regions, x) && Loses(c, s.tracker, ops, x) {
      var mems;
      if Early(c, s.tracker, ops, x) {
        mems := EarlyIsLost(c, s, ops, size, x);
      } else {
        mems := UnmarkedIsLost(c, s, ops, size, x);
      }
      assert !Right(c, s, ops, mems, size);
    } else {
      forall mems | Memories(mems, ops, size) ensures Right(c, s, ops, mems, size) {
        NothingLost(c, s, ops, mems, size);
      }
    }
  }

  /** The shortest loss: the guest writes 1, a grab marks it, a fetch and a read take it over, the guest writes 0 back.
      The last grab compares 0 with the 0 that the provider always had. */
  lemma RestoredByteIsLost()
    ensures
      var c := Settings([Region(0, 1, 0)], 1, true, false);
      var s := State([0], Tracking(1, {}), [0], multiset{});
      var ops, mems := [Grab, Fetch, Send(0)], [[1], [1], [1], [0]];
      && Start(c, s, 1) && Memories(mems, ops, 1) && !Right(c, s, ops, mems, 1)
  {
    var c := Settings([Region(0, 1, 0)], 1, true, false);
    var s := State([0], Tracking(1, {}), [0], multiset{});
    var ops, mems := [Grab, Fetch, Send(0)], [[1], [1], [1], [0]];
    RestoredByte(c, s, ops, mems);
    WrongAt(c, s, ops, mems, 1, 0);
  }

  lemma RestoredByte(c: Settings, s: State, ops: seq<Op>, mems: seq<seq<Byte>>)
    requires c == Settings([Region(0, 1, 0)], 1, true, false) && s == State([0], Tracking(1, {}), [0], multiset{})
    requires ops == [Grab, Fetch, Send(0)] && Memories(mems, ops, 1)
    requires mems[0] == mems[2] == [1] && mems[3] == [0]
    ensures Start(c, s, 1) && Shown(c.regions, 0) && !EndsRight(c, s, ops, mems, 1, 0)
  {
    var t := OneByteSent(c, s);
    ThreeSteps(c, s, ops, mems, 1, 0);
    StaleEndsWrong(c, t);
  }

  lemma ThreeSteps(c: Settings, s: State, ops: seq<Op>, mems: seq<seq<Byte>>, size: nat, x: nat)
    requires ops == [Grab, Fetch, Send(x)] && Memories(mems, ops, size) && Formed(c, s, size)
    ensures Formed(c, Grabbed(c, s, mems[0]), size) && Formed(c, Fetched(Grabbed(c, s, mems[0])), size)
    ensures After(c, s, ops, mems, |ops|) == Sent(c, Fetched(Grabbed(c, s, mems[0])), mems[2], x)
  {
    var step := Steps(c, ops, mems);
    assert Fold(step, s, 1) == step(s, 0) == Do(c, s, Grab, mems[0]);
    assert Fold(step, s, 2) == step(Fold(step, s, 1), 1) == Do(c, Grabbed(c, s, mems[0]), Fetch, mems[1]);
  }

  lemma WrongAt(c: Settings, s: State, ops: seq<Op>, mems: seq<seq<Byte>>, size: nat, x: nat)
    requires Formed(c, s, size) && Memories(mems, ops, size) && x < |s.held| && Shown(c.regions, x)
    requires !EndsRight(c, s, ops, mems, size, x)
    ensures !Right(c, s, ops, mems, size)
  {
  }

  lemma OneByteSent(c: Settings, s: State) returns (t: State)
    requires c == Settings([Region(0, 1, 0)], 1, true, false) && s == State([0], Tracking(1, {}), [0], multiset{})
    ensures Start(c, s, 1) && Shown(c.regions, 0)
    ensures Formed(c, Grabbed(c, s, [1]), 1) && Formed(c, Fetched(Grabbed(c, s, [1])), 1)
    ensures t == Sent(c, Fetched(Grabbed(c, s, [1])), [1], 0)
    ensures Formed(c, t, 1) && t.prov == [0] && t.held == [1] && 0 !in t.owed && !DirtyAt(t.tracker, 0)
  {
    OneByte([0], 1);
    GrabMarks(c, s, [1], 0);
    var s1 := Grabbed(c, s, [1]);
    FetchMoves(s1, 0);
    t := Sent(c, Fetched(s1), [1], 0);
  }

  lemma StaleEndsWrong(c: Settings, t: State)
    requires c.regions == [Region(0, 1, 0)] && Formed(c, t, 1)
    requires t.prov == [0] && t.held == [1] && 0 !in t.owed && !DirtyAt(t.tracker, 0)
    ensures !RightAt(c, t, [0], 0)
  {
    OneByte([0], 0);
    OneByte([1], 0);
    IdleGrab(c, t, [0]);
    FetchMoves(t, 0);
  }

  lemma OneByte(p: seq<Byte>, v: Byte)
    requires |p| == 1
    ensures Mapped([Region(0, 1, 0)], 1, 1) && Shown([Region(0, 1, 0)], 0)
    ensures Overlay(p, [v], [Region(0, 1, 0)]) == [v]
  {
    assert Shows([Region(0, 1, 0)][0], 0);
    OverlayShown(p, [v], [Region(0, 1, 0)], 0, 0);
  }

  // ----- the grabber's method as this grab -----

  ghost function Setting(g: MemoryGrabber, blockSize: nat): Settings {
    Settings(g.regions, blockSize, g.updateDirty, g.updateMemory)
  }

  ghost function View(g: MemoryGrabber, held: seq<Byte>, owed: multiset<nat>): State
    reads g, g.prov
  {
    State(g.prov[..], g.trackers.direct, held, owed)
  }

  method CompareIsGrab(g: MemoryGrabber, blockSize: nat, ghost held: seq<Byte>, ghost owed: multiset<nat>)
    requires g.Valid() && Formed(Setting(g, blockSize), View(g, held, owed), g.mem.Length)
    modifies g`softPages, g`trackers, g.prov
    ensures View(g, held, owed) == Grabbed(Setting(g, blockSize), old(View(g, held, owed)), g.mem[..])
  {
    ghost var t := g.trackers.direct;
    ghost var marks := g.GrabFailsafe(blockSize);
    assert MarkAll(t, []) == t;
  }
}
