/** Packages as sequences of named byte strings (package.go:63-202): archiving the devices of a machine, and extracting
    named devices in one pass over the archive. */
module Package {

  type Content = seq<bv8>

  datatype Device = Device(name: string, path: string)

  datatype Entry = Entry(name: string, content: Content)

  type Files = map<string, Content>

  datatype Result = Success | CouldNotStatDevice(path: string) | MissingDevice(name: string)

  /** The archive being read. */
  class Reader {
    const entries: seq<Entry>
    var position: nat

    ghost predicate Valid()
      reads this
    {
      position <= |entries|
    }

    constructor (entries: seq<Entry>)
      ensures this.entries == entries && position == 0 && Valid()
    {
      this.entries, position := entries, 0;
    }

    /** The next entry, or the end of the archive. */
    method Next() returns (eof: bool, e: Entry)
      requires Valid()
      modifies this
      ensures Valid() && eof == (old(position) == |entries|)
      ensures eof ==> position == old(position)
      ensures !eof ==> e == entries[old(position)] && position == old(position) + 1
    {
      eof, e := position == |entries|, Entry("", []);
      if !eof {
        e := entries[position];
        position := position + 1;
      }
    }
  }

  /** The places `at` pick, in order, an entry for each device. */
  ghost predicate Picks(archive: seq<Entry>, devices: seq<Device>, at: seq<nat>) {
    && |at| == |devices|
    && (forall k :: 0 <= k < |at| ==> at[k] < |archive| && archive[at[k]].name == devices[k].name)
    && (forall j, k :: 0 <= j < k < |at| ==> at[j] < at[k])
  }

  /** The names asked for are a subsequence of the names in the archive. */
  ghost predicate Available(archive: seq<Entry>, devices: seq<Device>) {
    exists at: seq<nat> :: Picks(archive, devices, at)
  }

  /** No choice of places for these devices is earlier. */
  ghost predicate Earliest(archive: seq<Entry>, devices: seq<Device>, at: seq<nat>) {
    forall other: seq<nat> | Picks(archive, devices, other) && |other| == |at| ::
      forall k :: 0 <= k < |at| ==> at[k] <= other[k]
  }

  /** The files after device after device got the content found for it. */
  function Written(files: Files, devices: seq<Device>, archive: seq<Entry>, at: seq<nat>): Files
    requires |at| == |devices| && forall k :: 0 <= k < |at| ==> at[k] < |archive|
    decreases |at|
  {
    if at == [] then files
    else
      var k := |at| - 1;
      Written(files, devices[..k], archive, at[..k])[devices[k].path := archive[at[k]].content]
  }

  /** Greedy matching loses nothing: if any places serve one more device, the first match after the earliest places
      does. */
  lemma NextMatch(archive: seq<Entry>, devices: seq<Device>, at: seq<nat>, other: seq<nat>)
    requires |devices| > 0 && Earliest(archive, devices[..|devices| - 1], at) && |at| == |devices| - 1
    requires Picks(archive, devices, other)
    ensures forall k :: 0 <= k < |at| ==> at[k] <= other[k]
    ensures |at| > 0 ==> at[|at| - 1] < other[|at|]
  {
    var k := |devices| - 1;
    assert Picks(archive, devices[..k], other[..k]);
  }

  /** One device of ExtractPackage (lines 146-194): skip entries until the name matches. */
  method Find(r: Reader, d: Device) returns (found: bool, content: Content)
    requires r.Valid()
    modifies r
    ensures r.Valid() && old(r.position) <= r.position
    ensures found ==> old(r.position) < r.position && r.entries[r.position - 1] == Entry(d.name, content)
    ensures forall j :: old(r.position) <= j < (if found then r.position - 1 else |r.entries|) ==>
              r.entries[j].name != d.name
  {
    found, content := false, [];
    while true
      invariant r.Valid() && old(r.position) <= r.position
      invariant forall j :: old(r.position) <= j < r.position ==> r.entries[j].name != d.name
      decreases |r.entries| - r.position
    {
      var eof, e := r.Next();
      if eof {
        return;
      }
      if e.name == d.name {
        return true, e.content;
      }
    }
  }

  /** The state of an extraction that has dealt with `devices`: the first places that serve them, their files, and the
      archive read up to the last of them. */
  ghost predicate Extracted(archive: seq<Entry>, devices: seq<Device>, at: seq<nat>, files: Files, out: Files,
                            position: nat)
  {
    && Picks(archive, devices, at) && Earliest(archive, devices, at)
    && out == Written(files, devices, archive, at)
    && position == After(at)
  }

  function After(at: seq<nat>): nat {
    if at == [] then 0 else at[|at| - 1] + 1
  }

  lemma ExtractedNone(archive: seq<Entry>, files: Files)
    ensures Extracted(archive, [], [], files, files, 0)
  {
  }

  lemma ExtractedOne(archive: seq<Entry>, front: seq<Device>, d: Device, at: seq<nat>, files: Files, out: Files,
                     from: nat, next: nat)
    requires Extracted(archive, front, at, files, out, from) && from <= next < |archive| && archive[next].name == d.name
    requires forall j :: from <= j < next ==> archive[j].name != d.name
    ensures Extracted(archive, front + [d], at + [next], files, out[d.path := archive[next].content], next + 1)
  {
    var upto := front + [d];
    assert upto[..|at|] == front && (at + [next])[..|at|] == at;
    Extend(archive, upto, at, from, next);
  }

  lemma ExtractedMisses(archive: seq<Entry>, front: seq<Device>, d: Device, at: seq<nat>, files: Files, out: Files,
                        from: nat)
    requires Extracted(archive, front, at, files, out, from)
    requires forall j :: from <= j < |archive| ==> archive[j].name != d.name
    ensures !Available(archive, front + [d])
  {
    assert (front + [d])[..|at|] == front;
    NothingLeft(archive, front + [d], at, from);
  }

  /** One device: find it, write it (lines 146-199). */
  method ExtractDevice(r: Reader, d: Device, files: Files, ghost front: seq<Device>, ghost at: seq<nat>,
                       ghost before: Files)
    returns (found: bool, out: Files, ghost next: seq<nat>)
    requires r.Valid() && Extracted(r.entries, front, at, before, files, r.position)
    modifies r
    ensures r.Valid()
    ensures found ==> Extracted(r.entries, front + [d], next, before, out, r.position)
    ensures !found ==> out == files && next == at && !Available(r.entries, front + [d])
  {
    ghost var from := r.position;
    var content;
    found, content := Find(r, d);
    out, next := files, at;
    if found {
      ExtractedOne(r.entries, front, d, at, before, files, from, r.position - 1);
      out := files[d.path := content];
      next := at + [r.position - 1];
    } else {
      ExtractedMisses(r.entries, front, d, at, before, files, from);
    }
  }

  lemma ExtractedAvailable(archive: seq<Entry>, devices: seq<Device>, at: seq<nat>, files: Files, out: Files,
                           position: nat)
    requires Extracted(archive, devices, at, files, out, position)
    ensures Available(archive, devices) && |at| == |devices| && position == After(at)
  {
  }

  lemma UpToNext(devices: seq<Device>, k: nat)
    requires k < |devices|
    ensures devices[..k] + [devices[k]] == devices[..k + 1]
  {
  }

  /** ExtractPackage (lines 129-202) on a readable archive and writable paths. It succeeds exactly when the names asked
      for are a subsequence of the archive's; otherwise it names the first device at which they stop being one, with
      the `n` devices before it written. */
  method ExtractPackage(archive: seq<Entry>, devices: seq<Device>, files: Files)
    returns (res: Result, out: Files, ghost n: nat, ghost at: seq<nat>)
    ensures res == Success <==> Available(archive, devices)
    ensures n <= |devices| && Extracted(archive, devices[..n], at, files, out, After(at))
    ensures res == Success ==> n == |devices|
    ensures res != Success ==>
              n < |devices| && res == MissingDevice(devices[n].name) && !Available(archive, devices[..n + 1])
  {
    var r := new Reader(archive);
    out, n, at := files, 0, [];
    ExtractedNone(archive, files);
    for k := 0 to |devices|
      invariant r.Valid() && r.entries == archive && n == k
      invariant Extracted(archive, devices[..k], at, files, out, r.position)
    {
      var found;
      UpToNext(devices, k);
      ExtractedAvailable(archive, devices[..k], at, files, out, r.position);
      found, out, at := ExtractDevice(r, devices[k], out, devices[..k], at, files);
      if !found {
        PrefixAvailable(archive, devices, k + 1);
        res := MissingDevice(devices[k].name);
        return;
      }
      n := n + 1;
    }
    assert devices[..|devices|] == devices;
    ExtractedAvailable(archive, devices, at, files, out, r.position);
    res := Success;
  }

  lemma NothingLeft(archive: seq<Entry>, devices: seq<Device>, at: seq<nat>, from: nat)
    requires |devices| > 0 && |at| == |devices| - 1 && Earliest(archive, devices[..|at|], at)
    requires from == After(at)
    requires forall j :: from <= j < |archive| ==> archive[j].name != devices[|at|].name
    ensures !Available(archive, devices)
  {
    forall other: seq<nat> | Picks(archive, devices, other) ensures false {
      NextMatch(archive, devices, at, other);
    }
  }

  lemma Extend(archive: seq<Entry>, devices: seq<Device>, at: seq<nat>, from: nat, next: nat)
    requires |devices| > 0 && |at| == |devices| - 1
    requires Picks(archive, devices[..|at|], at) && Earliest(archive, devices[..|at|], at)
    requires from == After(at) && from <= next < |archive|
    requires archive[next].name == devices[|at|].name
    requires forall j :: from <= j < next ==> archive[j].name != devices[|at|].name
    ensures Picks(archive, devices, at + [next]) && Earliest(archive, devices, at + [next])
  {
    forall other: seq<nat> | Picks(archive, devices, other)
      ensures forall k :: 0 <= k <= |at| ==> (at + [next])[k] <= other[k]
    {
      NextMatch(archive, devices, at, other);
      assert archive[other[|at|]].name == devices[|at|].name;
    }
  }

  lemma PrefixAvailable(archive: seq<Entry>, devices: seq<Device>, n: nat)
    requires n <= |devices|
    ensures Available(archive, devices) ==> Available(archive, devices[..n])
  {
    if at: seq<nat> :| Picks(archive, devices, at) {
      assert Picks(archive, devices[..n], at[..n]);
    }
  }

  /** ArchivePackage (lines 63-127): entries in the order of the devices, up to the first file that is not there. */
  method ArchivePackage(devices: seq<Device>, files: Files) returns (res: Result, archive: seq<Entry>)
    ensures res == Success <==> forall k :: 0 <= k < |devices| ==> devices[k].path in files
    ensures |archive| <= |devices|
    ensures forall k :: 0 <= k < |archive| ==>
              devices[k].path in files && archive[k] == Entry(devices[k].name, files[devices[k].path])
    ensures if res == Success then |archive| == |devices|
            else
              && |archive| < |devices| && devices[|archive|].path !in files
              && res == CouldNotStatDevice(devices[|archive|].path)
  {
    archive := [];
    for i := 0 to |devices|
      invariant |archive| == i
      invariant forall k :: 0 <= k < i ==>
                  devices[k].path in files && archive[k] == Entry(devices[k].name, files[devices[k].path])
    {
      if devices[i].path !in files {
        return CouldNotStatDevice(devices[i].path), archive;
      }
      archive := archive + [Entry(devices[i].name, files[devices[i].path])];
    }
    res := Success;
  }

  // ----- there and back -----

  ghost predicate DistinctPaths(devices: seq<Device>) {
    forall j, k :: 0 <= j < k < |devices| ==> devices[j].path != devices[k].path
  }

  /** A file that was written holds the entry of the last device with its path. */
  lemma {:induction false} WrittenAt(files: Files, devices: seq<Device>, archive: seq<Entry>, at: seq<nat>, k: nat)
    requires |at| == |devices| && k < |at| && forall j | k < j < |devices| :: devices[j].path != devices[k].path
    requires forall j :: 0 <= j < |at| ==> at[j] < |archive|
    ensures devices[k].path in Written(files, devices, archive, at)
    ensures Written(files, devices, archive, at)[devices[k].path] == archive[at[k]].content
    decreases |at|
  {
    var last := |at| - 1;
    if k < last {
      WrittenAt(files, devices[..last], archive, at[..last], k);
    }
  }

  lemma {:induction false} WrittenElsewhere(files: Files, devices: seq<Device>, archive: seq<Entry>, at: seq<nat>,
                                            path: string)
    requires |at| == |devices| && forall k :: 0 <= k < |devices| ==> devices[k].path != path
    requires forall j :: 0 <= j < |at| ==> at[j] < |archive|
    ensures path in Written(files, devices, archive, at) <==> path in files
    ensures path in files ==> Written(files, devices, archive, at)[path] == files[path]
    decreases |at|
  {
    if at != [] {
      var last := |at| - 1;
      WrittenElsewhere(files, devices[..last], archive, at[..last], path);
    }
  }

  lemma {:induction false} Climbs(at: seq<nat>, k: nat)
    requires k < |at| && forall i, j :: 0 <= i < j < |at| ==> at[i] < at[j]
    ensures k <= at[k]
  {
    if k > 0 {
      Climbs(at, k - 1);
    }
  }

  lemma AllAvailable(archive: seq<Entry>, devices: seq<Device>)
    requires |archive| == |devices| && forall k :: 0 <= k < |devices| ==> archive[k].name == devices[k].name
    ensures Available(archive, devices)
  {
    assert Picks(archive, devices, seq(|devices|, k requires 0 <= k < |devices| => k));
  }

  /** The earliest places in an archive with exactly these names are all of them. */
  lemma AllPlaces(archive: seq<Entry>, devices: seq<Device>, at: seq<nat>)
    requires |archive| == |devices| && forall k :: 0 <= k < |devices| ==> archive[k].name == devices[k].name
    requires Picks(archive, devices, at) && Earliest(archive, devices, at)
    ensures forall k :: 0 <= k < |at| ==> at[k] == k
  {
    var all: seq<nat> := seq(|devices|, k requires 0 <= k < |devices| => k);
    assert Picks(archive, devices, all);
    forall k: nat | k < |at| ensures at[k] == k {
      Climbs(at, k);
      assert at[k] <= all[k];
    }
  }

  /** Archive, then extract the same names to distinct paths, on any machine: every device's bytes are back, and no
      other file has changed. */
  method ArchiveThenExtract(devices: seq<Device>, files: Files, outputs: seq<Device>, there: Files) returns (out: Files)
    requires forall k :: 0 <= k < |devices| ==> devices[k].path in files
    requires |outputs| == |devices| && forall k :: 0 <= k < |devices| ==> outputs[k].name == devices[k].name
    requires DistinctPaths(outputs)
    ensures forall k :: 0 <= k < |devices| ==> outputs[k].path in out && out[outputs[k].path] == files[devices[k].path]
    ensures forall path: string | (forall k :: 0 <= k < |outputs| ==> outputs[k].path != path) ::
              (path in out <==> path in there) && (path in there ==> out[path] == there[path])
  {
    var archived, archive := ArchivePackage(devices, files);
    AllAvailable(archive, outputs);
    ghost var n, at;
    var res;
    res, out, n, at := ExtractPackage(archive, outputs, there);
    assert outputs[..|outputs|] == outputs;
    AllPlaces(archive, outputs, at);
    forall k: nat | k < |devices| ensures outputs[k].path in out && out[outputs[k].path] == files[devices[k].path] {
      WrittenAt(there, outputs, archive, at, k);
    }
    forall path: string | (forall k :: 0 <= k < |outputs| ==> outputs[k].path != path)
      ensures (path in out <==> path in there) && (path in there ==> out[path] == there[path])
    {
      WrittenElsewhere(there, outputs, archive, at, path);
    }
  }
}
