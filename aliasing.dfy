/** Byte slices as Go shares them, for the default `Marshal` of the Protobuf
    serializer (serializer.go). `encodePayloadHeader` returns `buf[0:length]`,
    whose capacity is the whole `5 + (1 + n) * 10`-byte buffer; `generateHeader`
    caches that slice and hands the same slice to every later call; and `Marshal`
    returns `append(header, bytes...)`. When the payload fits in the spare capacity,
    `append` writes it into the cached buffer itself, so every record produced for
    one message type shares the same storage. */
module Aliasing {
  import opened Common
  import opened Header

  /** Go's `append(s, tail...)` for a slice `s` that is the first `length` bytes of
      `buf` with capacity `buf.Length`: when the tail fits, it is written into `buf`
      and the result shares `buf`; otherwise the bytes move to a new array. */
  method Append(buf: array<Byte>, length: nat, tail: seq<Byte>) returns (out: array<Byte>, outLength: nat)
    requires length <= buf.Length
    modifies buf
    ensures outLength == length + |tail| && outLength <= out.Length
    ensures out[..outLength] == old(buf[..length]) + tail
    ensures length + |tail| <= buf.Length ==> out == buf
    ensures length + |tail| > buf.Length ==> fresh(out) && unchanged(buf)
  {
    if length + |tail| <= buf.Length {
      for i := 0 to |tail|
        invariant buf[..length + i] == old(buf[..length]) + tail[..i]
      {
        buf[length + i] := tail[i];
        assert tail[..i + 1] == tail[..i] + [tail[i]];
      }
      assert tail[..|tail|] == tail;
      return buf, length + |tail|;
    }
    out := new Byte[length + |tail|];
    for i := 0 to length
      modifies out
      invariant out[..i] == buf[..i]
    {
      out[i] := buf[i];
    }
    for i := 0 to |tail|
      modifies out
      invariant out[..length + i] == buf[..length] + tail[..i]
    {
      out[length + i] := tail[i];
      assert tail[..i + 1] == tail[..i] + [tail[i]];
    }
    assert tail[..|tail|] == tail;
    outLength := length + |tail|;
  }

  /** The intended `Marshal`, as its `VTMarshal` branch already does it: a new buffer
      receives the header and then the payload, and the cached header is only read. */
  method MarshalIntoFreshBuffer(header: array<Byte>, length: nat, payload: seq<Byte>)
    returns (out: array<Byte>, outLength: nat)
    requires length <= header.Length
    ensures fresh(out)
    ensures outLength == length + |payload| && outLength <= out.Length
    ensures out[..outLength] == header[..length] + payload
  {
    out := new Byte[length + |payload|];
    for i := 0 to length
      invariant out[..i] == header[..i]
    {
      out[i] := header[i];
    }
    for i := 0 to |payload|
      invariant out[..length + i] == header[..length] + payload[..i]
    {
      out[length + i] := payload[i];
      assert payload[..i + 1] == payload[..i] + [payload[i]];
    }
    assert payload[..|payload|] == payload;
    outLength := length + |payload|;
  }

  /** As written: two records for the same message type under schema 1 (path `[0]`,
      a 7-byte header in a 25-byte buffer). The second `Marshal` writes its payload
      over the first record's, which changes although nobody touched it. */
  method SecondRecordOverwritesFirst() returns (firstBefore: seq<Byte>, firstAfter: seq<Byte>)
    ensures firstBefore == HeaderBytes(1, [0]) + [8, 1]
    ensures firstAfter == HeaderBytes(1, [0]) + [8, 2]
    ensures firstAfter != firstBefore
  {
    var cached, length := EncodePayloadHeaderBuffer(1, [0]);
    assert |HeaderBytes(1, [0])| == 7;
    var first, firstLength := Append(cached, length, [8, 1]);
    firstBefore := first[..firstLength];
    var second, secondLength := Append(cached, length, [8, 2]);
    firstAfter := first[..firstLength];
    assert firstAfter[8] != firstBefore[8];
  }

  /** Corrected: with a fresh buffer per record the first record is the same after
      the second one is produced. */
  method SecondRecordKeepsFirst() returns (firstBefore: seq<Byte>, firstAfter: seq<Byte>)
    ensures firstBefore == HeaderBytes(1, [0]) + [8, 1]
    ensures firstAfter == firstBefore
  {
    var cached, length := EncodePayloadHeaderBuffer(1, [0]);
    var first, firstLength := MarshalIntoFreshBuffer(cached, length, [8, 1]);
    firstBefore := first[..firstLength];
    var second, secondLength := MarshalIntoFreshBuffer(cached, length, [8, 2]);
    firstAfter := first[..firstLength];
  }
}
