/** The padding added to every snapshot file (snapshotter.go:309-358) and the trimming of the config when a machine is
    resumed from it (runtime.go:86-100). */
module SnapshotConfig {

  type Byte = bv8

  const MIN_PADDING: int := 1024 * 1024
  const PADDING_MULTIPLE: int := 1024 * 1024

  function Zeros(n: nat): (s: seq<Byte>)
    ensures |s| == n && forall k :: 0 <= k < n ==> s[k] == 0
  {
    seq(n, _ => 0)
  }

  ghost predicate ZeroFree(s: seq<Byte>) {
    forall k :: 0 <= k < |s| ==> s[k] != 0
  }

  /** One file of copySnapshotFiles (lines 326-351): its content, then zeros to a whole number of MiB, at least one. */
  method CopySnapshotFile(content: seq<Byte>) returns (file: seq<Byte>)
    ensures content <= file && file == content + Zeros(|file| - |content|)
    ensures MIN_PADDING <= |file| - |content| < MIN_PADDING + PADDING_MULTIPLE
    ensures |file| % PADDING_MULTIPLE == 0
  {
    var deviceSize := |content|;
    var paddingLength := PADDING_MULTIPLE - deviceSize % PADDING_MULTIPLE;
    if paddingLength < MIN_PADDING {
      paddingLength := paddingLength + MIN_PADDING;
    }
    file := content;
    if paddingLength > 0 {
      file := file + Zeros(paddingLength);
    }
  }

  /** The padding is the only one of that kind. */
  lemma PaddingIsUnique(size: nat, a: nat, b: nat)
    requires MIN_PADDING <= a < MIN_PADDING + PADDING_MULTIPLE && (size + a) % PADDING_MULTIPLE == 0
    requires MIN_PADDING <= b < MIN_PADDING + PADDING_MULTIPLE && (size + b) % PADDING_MULTIPLE == 0
    ensures a == b
  {
    var q, p := (size + a) / PADDING_MULTIPLE, (size + b) / PADDING_MULTIPLE;
    assert size + a == q * PADDING_MULTIPLE && size + b == p * PADDING_MULTIPLE;
  }

  /** What Resume takes for the config: everything before the first zero byte, and nothing when there is no zero. */
  method TrimConfig(data: seq<Byte>) returns (config: seq<Byte>)
    ensures config <= data && ZeroFree(config)
    ensures if ZeroFree(data) then config == [] else data[|config|] == 0
  {
    var firstZero := 0;
    for i := 0 to |data|
      invariant firstZero == 0 && ZeroFree(data[..i])
    {
      if data[i] == 0 {
        firstZero := i;
        return data[..firstZero];
      }
    }
    assert data[..|data|] == data;
    config := data[..firstZero];
  }

  /** Copying a config into a snapshot and trimming it on resume gives it back exactly when it holds no zero byte. */
  method ConfigRoundTrip(config: seq<Byte>) returns (read: seq<Byte>)
    ensures read == config <==> ZeroFree(config)
    ensures read <= config
  {
    var file := CopySnapshotFile(config);
    read := TrimConfig(file);
    assert file[|config|] == 0;
    if ZeroFree(config) {
      assert |read| >= |config|;
      assert read == file[..|config|];
    } else {
      var k :| 0 <= k < |config| && config[k] == 0;
      assert file[k] == 0;
    }
  }
}
