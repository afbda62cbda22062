/** The Protobuf wire header that precedes every serialized record: the version byte 0, the
    schema id as four big-endian bytes, the length of the message-index path as a ZigZag varint
    and then every path element as a ZigZag varint. */
module Header {
  import opened Common
  import opened Binary

  // ---------------------------------------------------------------- what the encoder writes

  /** The varints of the path elements, in path order. */
  function IndexesBytes(path: seq<int>): seq<Byte>
  {
    if |path| == 0 then [] else VarintBytes(path[0]) + IndexesBytes(path[1..])
  }

  /** The complete header for `schemaId` and `path`. The id is written as Go's `uint32(schemaId)`,
      which keeps the low 32 bits (two's complement for a negative id). */
  function HeaderBytes(schemaId: int, path: seq<int>): seq<Byte>
  {
    [0] + PutUint32(schemaId % TwoTo32) + VarintBytes(|path|) + IndexesBytes(path)
  }

  lemma {:induction false} IndexesBytesAppend(path: seq<int>, x: int)
    ensures IndexesBytes(path + [x]) == IndexesBytes(path) + VarintBytes(x)
    decreases |path|
  {
    if |path| == 0 {
      assert path + [x] == [x];
    } else {
      assert (path + [x])[1..] == path[1..] + [x];
      IndexesBytesAppend(path[1..], x);
    }
  }

  lemma IndexesBytesPrefix(path: seq<int>, k: nat)
    requires k < |path|
    ensures IndexesBytes(path[..k + 1]) == IndexesBytes(path[..k]) + VarintBytes(path[k])
  {
    assert path[..k + 1] == path[..k] + [path[k]];
    IndexesBytesAppend(path[..k], path[k]);
  }

  lemma VarintWidth(x: Int64)
    ensures |VarintBytes(x)| <= MaxVarintLen64
  {
    VarintRoundTrip(x, []);
  }

  /** `binary.PutVarint(buf[off:], x)`: the ZigZag value is written seven bits at a time, and
      nothing outside the bytes it reports is touched. Go panics when the slice is too short;
      here the caller must leave room. */
  method PutVarint(buf: array<Byte>, off: nat, x: int) returns (n: nat)
    requires off + |VarintBytes(x)| <= buf.Length
    modifies buf
    ensures n == |VarintBytes(x)|
    ensures buf[..off + n] == old(buf[..off]) + VarintBytes(x)
    ensures forall j :: off + n <= j < buf.Length ==> buf[j] == old(buf[j])
  {
    ghost var want := VarintBytes(x);
    var ux: nat := ZigZag(x);
    var i := 0;
    while ux >= 128
      invariant i + |UvarintBytes(ux)| == |want|
      invariant want[i..] == UvarintBytes(ux)
      invariant forall j :: 0 <= j < i ==> buf[off + j] == want[j]
      invariant forall j :: 0 <= j < buf.Length && !(off <= j < off + i) ==> buf[j] == old(buf[j])
      decreases ux
    {
      // byte(ux) | 0x80: the low seven bits with the continuation bit set
      buf[off + i] := ux % 128 + 128;
      assert want[i + 1..] == want[i..][1..];
      ux := ux / 128;
      i := i + 1;
    }
    buf[off + i] := ux;
    n := i + 1;
    assert buf[..off + n] == old(buf[..off]) + want by {
      assert forall j :: 0 <= j < off ==> buf[..off + n][j] == old(buf[..off])[j];
      assert forall j :: 0 <= j < n ==> buf[..off + n][off + j] == want[j];
    }
  }

  /** `binary.BigEndian.PutUint32(buf[off:off+4], v)`. */
  method BigEndianPutUint32(buf: array<Byte>, off: nat, v: nat)
    requires off + 4 <= buf.Length && v < TwoTo32
    modifies buf
    ensures buf[..off + 4] == old(buf[..off]) + PutUint32(v)
    ensures forall j :: off + 4 <= j < buf.Length ==> buf[j] == old(buf[j])
  {
    buf[off] := v / 0x100_0000 % 256;
    buf[off + 1] := v / 0x1_0000 % 256;
    buf[off + 2] := v / 0x100 % 256;
    buf[off + 3] := v % 256;
    assert buf[..off + 4] == buf[..off] + buf[off..off + 4];
  }

  /** `encodePayloadHeader`: the header is written into a buffer of `5 + (1 + n) * 10` bytes and
      cut to the length actually written. */
  method EncodePayloadHeader(schemaId: int, msgIndexes: seq<Int64>) returns (header: seq<Byte>)
    requires |msgIndexes| <= MaxIntSliceLen  // a Go []int is never longer
    ensures header == HeaderBytes(schemaId, msgIndexes)
    ensures |header| <= 5 + (1 + |msgIndexes|) * MaxVarintLen64
  {
    var buf, length := EncodePayloadHeaderBuffer(schemaId, msgIndexes);
    header := buf[..length];
  }

  /** The buffer behind the slice `encodePayloadHeader` returns: `buf[0:length]` keeps the whole
      allocation as its capacity. */
  method EncodePayloadHeaderBuffer(schemaId: int, msgIndexes: seq<Int64>) returns (buf: array<Byte>, length: nat)
    requires |msgIndexes| <= MaxIntSliceLen
    ensures fresh(buf)
    ensures buf.Length == 5 + (1 + |msgIndexes|) * MaxVarintLen64
    ensures length <= buf.Length
    ensures buf[..length] == HeaderBytes(schemaId, msgIndexes)
  {
    buf := new Byte[5 + (1 + |msgIndexes|) * MaxVarintLen64];
    length := WriteHeaderStart(buf, schemaId, |msgIndexes|);
    ghost var prefix := buf[..length];
    for k := 0 to |msgIndexes|
      invariant 5 <= length <= 15 + 10 * k
      invariant buf[..length] == prefix + IndexesBytes(msgIndexes[..k])
    {
      VarintWidth(msgIndexes[k]);
      var n := PutVarint(buf, length, msgIndexes[k]);
      IndexesBytesPrefix(msgIndexes, k);
      assert buf[..length + n] == prefix + IndexesBytes(msgIndexes[..k + 1]);
      length := length + n;
    }
    assert msgIndexes[..|msgIndexes|] == msgIndexes;
  }

  /** The fixed part of `encodePayloadHeader`: the version byte, the schema id and the varint
      of the path length, written at the start of `buf`. */
  method WriteHeaderStart(buf: array<Byte>, schemaId: int, count: nat) returns (length: nat)
    requires count <= MaxIntSliceLen && buf.Length >= 15
    modifies buf
    ensures 5 <= length <= 15
    ensures buf[..length] == [0] + PutUint32(schemaId % TwoTo32) + VarintBytes(count)
  {
    buf[0] := 0;
    assert buf[..1] == [0];
    BigEndianPutUint32(buf, 1, schemaId % TwoTo32);
    VarintWidth(count);
    var n := PutVarint(buf, 5, count);
    length := 5 + n;
  }

  /** Byte 0 of every header is the wire version 0 and bytes 1..4 read back, big-endian, as
      `uint32(schemaId)`. */
  lemma HeaderPrefix(schemaId: int, path: seq<int>)
    ensures |HeaderBytes(schemaId, path)| > 5
    ensures HeaderBytes(schemaId, path)[0] == 0
    ensures Uint32(HeaderBytes(schemaId, path)[1..5]) == schemaId % TwoTo32
  {
    var h := HeaderBytes(schemaId, path);
    assert h[1..5] == PutUint32(schemaId % TwoTo32);
    Uint32OfPutUint32(schemaId % TwoTo32);
  }

  // ---------------------------------------------------------------- what the decoder reads

  /** The longest `[]int` that `make` accepts on a 64-bit platform: the runtime's 2^48-byte
      allocation limit over 8-byte elements. A longer or negative length panics. */
  const MaxIntSliceLen: nat := 0x2000_0000_0000

  /** What `decodeHeader` returns, or that it panics (an index out of range on a short input, or
      `make` with a negative or too large length). */
  datatype Decoded =
    | Panicked
    | Returned(totalBytesRead: int, schemaId: int, msgIndexes: seq<int>, err: Option<Error>)

  /** Reading `count` more varints from `bytes` at `pos`, after the values `acc`: the position
      after the last complete varint, all values read, and whether all `count` were read. */
  function ReadIndexes(bytes: seq<Byte>, pos: nat, count: nat, acc: seq<int>): (r: (nat, seq<int>, bool))
    requires pos <= |bytes|
    ensures pos <= r.0 <= |bytes|
    ensures |acc| <= |r.1| <= |acc| + count
    ensures r.2 <==> |r.1| == |acc| + count
    decreases count
  {
    if count == 0 then (pos, acc, true)
    else
      var (x, n) := Varint(bytes[pos..]);
      if n <= 0 then (pos, acc, false)
      else ReadIndexes(bytes, pos + n, count - 1, acc + [x])
  }

  function Zeros(k: nat): (z: seq<int>)
    ensures |z| == k && forall i :: 0 <= i < k ==> z[i] == 0
  {
    seq(k, _ => 0)
  }

  /** `decodeHeader` as a function of its input. After a failed element the returned array still
      has `arrayLen` entries: the values read so far, then zeros. */
  function ParseHeader(bytes: seq<Byte>): (r: Decoded)
    ensures r.Returned? ==> 0 <= r.totalBytesRead <= |bytes|
  {
    if |bytes| == 0 then Panicked
    else if bytes[0] != 0 then Returned(0, 0, [], Some(InvalidProtobufWireProtocolVersion))
    else if |bytes| < 5 then Panicked
    else
      var schemaId := Uint32(bytes[1..5]);
      var (arrayLen, n) := Varint(bytes[5..]);
      if n <= 0 then Returned(0, schemaId, [], Some(UnableToDecodeMessageIndexArray))
      else if arrayLen < 0 || arrayLen > MaxIntSliceLen then Panicked
      else IndexesOutcome(bytes, schemaId, 5 + n, arrayLen)
  }

  /** The result once the length `arrayLen` has been read and the elements start at `start`. */
  function IndexesOutcome(bytes: seq<Byte>, schemaId: int, start: nat, arrayLen: nat): (r: Decoded)
    requires start <= |bytes|
    ensures r.Returned? && start <= r.totalBytesRead <= |bytes|
  {
    var (total, values, ok) := ReadIndexes(bytes, start, arrayLen, []);
    Returned(total, schemaId, values + Zeros(arrayLen - |values|),
             if ok then None else Some(UnableToDecodeValueInMessageIndexArray))
  }

  /** `decodeHeader`: fills a zeroed array of the decoded length one varint at a time. */
  method DecodeHeader(bytes: seq<Byte>) returns (r: Decoded)
    ensures r == ParseHeader(bytes)
  {
    if |bytes| == 0 {
      return Panicked;
    }
    if bytes[0] != 0 {
      return Returned(0, 0, [], Some(InvalidProtobufWireProtocolVersion));
    }
    if |bytes| < 5 {
      return Panicked;
    }
    var schemaId := Uint32(bytes[1..5]);
    var (arrayLen, bytesRead) := Varint(bytes[5..]);
    if bytesRead <= 0 {
      return Returned(0, schemaId, [], Some(UnableToDecodeMessageIndexArray));
    }
    if arrayLen < 0 || arrayLen > MaxIntSliceLen {
      return Panicked;
    }
    r := FillMessageIndexes(bytes, schemaId, 5 + bytesRead, arrayLen);
  }

  /** The loop of `decodeHeader`: a zeroed array of `arrayLen` entries is filled one varint at a
      time from `start` on, stopping at the first varint that cannot be read. */
  method FillMessageIndexes(bytes: seq<Byte>, schemaId: int, start: nat, arrayLen: nat) returns (r: Decoded)
    requires start <= |bytes|
    ensures r == IndexesOutcome(bytes, schemaId, start, arrayLen)
  {
    var totalBytesRead := start;
    var msgIndexes := new int[arrayLen](_ => 0);
    var i := 0;
    while i < arrayLen
      invariant 0 <= i <= arrayLen
      invariant start <= totalBytesRead <= |bytes|
      invariant forall k :: i <= k < arrayLen ==> msgIndexes[k] == 0
      invariant ReadIndexes(bytes, totalBytesRead, arrayLen - i, msgIndexes[..i])
             == ReadIndexes(bytes, start, arrayLen, [])
    {
      var (idx, n) := Varint(bytes[totalBytesRead..]);
      if n <= 0 {
        assert msgIndexes[..] == msgIndexes[..i] + Zeros(arrayLen - i);
        return Returned(totalBytesRead, schemaId, msgIndexes[..], Some(UnableToDecodeValueInMessageIndexArray));
      }
      msgIndexes[i] := idx;
      assert msgIndexes[..i + 1] == msgIndexes[..i] + [idx];
      totalBytesRead := totalBytesRead + n;
      i := i + 1;
    }
    assert msgIndexes[..] == msgIndexes[..i] + Zeros(0);
    return Returned(totalBytesRead, schemaId, msgIndexes[..], None);
  }

  // ---------------------------------------------------------------- round trip

  /** One varint read at `pos`, and what follows it. */
  lemma VarintAt(s: seq<Byte>, pos: nat, x: Int64, rest: seq<Byte>)
    requires pos <= |s| && s[pos..] == VarintBytes(x) + rest
    ensures Varint(s[pos..]) == (x, |VarintBytes(x)|)
    ensures s[pos + |VarintBytes(x)|..] == rest
  {
    VarintRoundTrip(x, rest);
    assert s[pos + |VarintBytes(x)|..] == s[pos..][|VarintBytes(x)|..];
  }

  lemma {:induction false} ReadIndexesOfIndexesBytes(s: seq<Byte>, pos: nat, path: seq<Int64>, rest: seq<Byte>, acc: seq<int>)
    requires pos <= |s| && s[pos..] == IndexesBytes(path) + rest
    ensures ReadIndexes(s, pos, |path|, acc) == (pos + |IndexesBytes(path)|, acc + path, true)
    decreases |path|
  {
    if |path| == 0 {
      assert acc + path == acc;
    } else {
      var n := |VarintBytes(path[0])|;
      var tail := path[1..];
      ReadIndexesStep(s, pos, path, rest, acc);
      ReadIndexesOfIndexesBytes(s, pos + n, tail, rest, acc + [path[0]]);
      assert acc + [path[0]] + tail == acc + path;
    }
  }

  /** The first element's varint read from an encoded path, and what is left to read. */
  lemma ReadIndexesStep(s: seq<Byte>, pos: nat, path: seq<Int64>, rest: seq<Byte>, acc: seq<int>)
    requires |path| > 0 && pos <= |s| && s[pos..] == IndexesBytes(path) + rest
    ensures var n := |VarintBytes(path[0])|;
      pos + n <= |s| && s[pos + n..] == IndexesBytes(path[1..]) + rest
      && |IndexesBytes(path)| == n + |IndexesBytes(path[1..])|
      && Varint(s[pos..]) == (path[0], n)
      && ReadIndexes(s, pos, |path|, acc) == ReadIndexes(s, pos + n, |path| - 1, acc + [path[0]])
  {
    var v := VarintBytes(path[0]);
    var tail := IndexesBytes(path[1..]);
    assert IndexesBytes(path) == v + tail;
    assert s[pos..] == v + (tail + rest);
    VarintAt(s, pos, path[0], tail + rest);
    VarintRoundTrip(path[0], tail + rest);
  }

  /** Decoding what `encodePayloadHeader` wrote, followed by any payload, gives back the number of
      header bytes, `uint32(schemaId)` and the very same path, without error. This includes the
      empty path, which the decoder returns as empty. */
  lemma HeaderRoundTrip(schemaId: int, path: seq<Int64>, payload: seq<Byte>)
    requires |path| <= MaxIntSliceLen
    ensures ParseHeader(HeaderBytes(schemaId, path) + payload)
         == Returned(|HeaderBytes(schemaId, path)|, schemaId % TwoTo32, path, None)
  {
    var h := HeaderBytes(schemaId, path);
    var bytes := h + payload;
    HeaderPrefix(schemaId, path);
    assert bytes[1..5] == h[1..5];
    var lenBytes := VarintBytes(|path|);
    assert bytes[5..] == lenBytes + (IndexesBytes(path) + payload);
    VarintRoundTrip(|path|, IndexesBytes(path) + payload);
    assert bytes[5 + |lenBytes|..] == bytes[5..][|lenBytes|..];
    ReadIndexesOfIndexesBytes(bytes, 5 + |lenBytes|, path, payload, []);
    assert path + Zeros(0) == path;
  }

  // ---------------------------------------------------------------- truncated input

  lemma {:induction false} UvarintFromTruncated(x: nat, i: nat, k: nat)
    requires i < MaxVarintLen64 && x < Pow2(64 - 7 * i)
    requires k < |UvarintBytes(x)|
    ensures UvarintFrom(UvarintBytes(x)[..k], i) == (0, 0)
    decreases x
  {
    if k > 0 {
      assert x >= 128;
      assert i < MaxVarintLen64 - 1;
      Pow2Step7(64 - 7 * i);
      assert UvarintBytes(x)[..k][1..] == UvarintBytes(x / 128)[..k - 1];
      UvarintFromTruncated(x / 128, i + 1, k - 1);
    }
  }

  /** A strict prefix of a varint is reported as incomplete (`n == 0`). */
  lemma VarintTruncated(x: Int64, k: nat)
    requires k < |VarintBytes(x)|
    ensures Varint(VarintBytes(x)[..k]).1 == 0
  {
    ZigZagBounds(x);
    Pow2Is64();
    UvarintFromTruncated(ZigZag(x), 0, k);
  }

  lemma {:induction false} ReadIndexesTruncated(s: seq<Byte>, pos: nat, path: seq<Int64>, t: nat, acc: seq<int>)
    requires t < |IndexesBytes(path)|
    requires pos <= |s| && s[pos..] == IndexesBytes(path)[..t]
    ensures !ReadIndexes(s, pos, |path|, acc).2
    decreases |path|
  {
    var v := VarintBytes(path[0]);
    assert IndexesBytes(path) == v + IndexesBytes(path[1..]);
    if t < |v| {
      assert s[pos..] == v[..t];
      VarintTruncated(path[0], t);
    } else {
      assert s[pos..] == v + IndexesBytes(path[1..])[..t - |v|];
      VarintRoundTrip(path[0], IndexesBytes(path[1..])[..t - |v|]);
      assert s[pos + |v|..] == s[pos..][|v|..];
      ReadIndexesTruncated(s, pos + |v|, path[1..], t - |v|, acc + [path[0]]);
    }
  }

  /** No strict prefix of a header decodes cleanly: a record cut short anywhere in its header
      either panics (fewer than five bytes) or is reported with an error. */
  lemma TruncatedHeaderFails(schemaId: int, path: seq<Int64>, m: nat)
    requires |path| <= MaxIntSliceLen
    requires m < |HeaderBytes(schemaId, path)|
    ensures ParseHeader(HeaderBytes(schemaId, path)[..m]).Panicked?
         || ParseHeader(HeaderBytes(schemaId, path)[..m]).err.Some?
  {
    var h := HeaderBytes(schemaId, path);
    var bytes := h[..m];
    var lenBytes := VarintBytes(|path|);
    if m >= 5 {
      HeaderPrefix(schemaId, path);
      if m < 5 + |lenBytes| {
        assert bytes[5..] == lenBytes[..m - 5];
        VarintTruncated(|path|, m - 5);
      } else {
        assert bytes[5..] == lenBytes + IndexesBytes(path)[..m - 5 - |lenBytes|];
        VarintRoundTrip(|path|, IndexesBytes(path)[..m - 5 - |lenBytes|]);
        assert bytes[5 + |lenBytes|..] == bytes[5..][|lenBytes|..];
        ReadIndexesTruncated(bytes, 5 + |lenBytes|, path, m - 5 - |lenBytes|, []);
      }
    }
  }
}
