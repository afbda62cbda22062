/** The parts of Go's `encoding/binary` that the wire header uses: big-endian
    `uint32`, and the ZigZag plus base-128 varints of `PutVarint` / `Varint`
    (the "Base 128 Varints" and "Signed Integers" sections of the Protocol
    Buffers encoding guide). */
module Binary {
  import opened Common

  /** `binary.MaxVarintLen64`. */
  const MaxVarintLen64: nat := 10

  function Pow2(n: nat): (r: nat)
    ensures r >= 1
  {
    if n == 0 then 1 else 2 * Pow2(n - 1)
  }

  lemma Pow2Step7(n: nat)
    requires n >= 7
    ensures Pow2(n) == 128 * Pow2(n - 7)
  {
    calc {
      Pow2(n);
      2 * Pow2(n - 1);
      4 * Pow2(n - 2);
      8 * Pow2(n - 3);
      16 * Pow2(n - 4);
      32 * Pow2(n - 5);
      64 * Pow2(n - 6);
      128 * Pow2(n - 7);
    }
  }

  lemma Pow2Is64()
    ensures Pow2(64) == TwoTo64
  {
    Pow2Step7(64); Pow2Step7(57); Pow2Step7(50); Pow2Step7(43); Pow2Step7(36);
    Pow2Step7(29); Pow2Step7(22); Pow2Step7(15); Pow2Step7(8);
  }

  // ---------------------------------------------------------------- big endian

  /** `binary.BigEndian.PutUint32`: the four bytes of `v`, most significant first. */
  function PutUint32(v: nat): (b: seq<Byte>)
    requires v < TwoTo32
    ensures |b| == 4
  {
    [v / 0x100_0000 % 256, v / 0x1_0000 % 256, v / 0x100 % 256, v % 256]
  }

  /** `binary.BigEndian.Uint32`. */
  function Uint32(b: seq<Byte>): (v: nat)
    requires |b| == 4
    ensures v < TwoTo32
  {
    var b0: int, b1: int, b2: int, b3: int := b[0], b[1], b[2], b[3];
    b0 * 0x100_0000 + b1 * 0x1_0000 + b2 * 0x100 + b3
  }

  lemma Uint32OfPutUint32(v: nat)
    requires v < TwoTo32
    ensures Uint32(PutUint32(v)) == v
  {
    var q1 := v / 0x100;
    var q2 := q1 / 0x100;
    var q3 := q2 / 0x100;
    assert v == q1 * 0x100 + v % 0x100;
    assert q1 == q2 * 0x100 + q1 % 0x100;
    assert q2 == q3 * 0x100 + q2 % 0x100;
    assert v / 0x1_0000 == q2;
    assert v / 0x100_0000 == q3 && q3 < 0x100;
  }

  /** `uint32(x)` leaves a value that already fits unchanged. Kept as a lemma of its own so
      that the modulus is reasoned about outside the large contexts that use it. */
  lemma Uint32Identity(x: int)
    requires 0 <= x < TwoTo32
    ensures x % TwoTo32 == x
  {
  }

  lemma PutUint32OfUint32(b: seq<Byte>)
    requires |b| == 4
    ensures PutUint32(Uint32(b)) == b
  {
    var v := Uint32(b);
    var b0: int, b1: int, b2: int := b[0], b[1], b[2];
    assert v / 0x100 == b0 * 0x1_0000 + b1 * 0x100 + b2;
    assert v / 0x1_0000 == b0 * 0x100 + b1;
    assert v / 0x100_0000 == b[0];
  }

  // ---------------------------------------------------------------- ZigZag

  /** The unsigned value `PutVarint` stores for `x`: `uint64(x) << 1`, complemented when `x < 0`. */
  function ZigZag(x: int): nat
  {
    if x >= 0 then 2 * x else -2 * x - 1
  }

  /** What `Varint` makes of the unsigned value `u`: `int64(u >> 1)`, complemented when `u` is odd. */
  function UnZigZag(u: nat): int
  {
    if u % 2 == 0 then u / 2 else -((u + 1) / 2)
  }

  lemma ZigZagBounds(x: Int64)
    ensures ZigZag(x) < TwoTo64
    ensures UnZigZag(ZigZag(x)) == x
  {
  }

  lemma UnZigZagBounds(u: nat)
    requires u < TwoTo64
    ensures MinInt64 <= UnZigZag(u) <= MaxInt64
    ensures ZigZag(UnZigZag(u)) == u
  {
  }

  // ---------------------------------------------------------------- base-128 varints

  /** The bytes `PutUvarint` writes for `x`: seven bits at a time, low group first,
      every byte but the last with its high bit set. */
  function UvarintBytes(x: nat): (b: seq<Byte>)
    ensures |b| >= 1
    decreases x
  {
    if x < 128 then [x] else [x % 128 + 128] + UvarintBytes(x / 128)
  }

  /** `binary.Uvarint` on `s`, after `i` bytes have already been consumed: the value of the
      remaining groups and the total byte count `n`. As in Go, `n == 0` means the input ended
      inside the varint and `n < 0` means the value overflows 64 bits; in both cases the value is 0. */
  function UvarintFrom(s: seq<Byte>, i: nat): (r: (nat, int))
    requires i <= MaxVarintLen64
    ensures r.1 > 0 ==> i < r.1 <= i + |s| && r.1 <= MaxVarintLen64
    ensures r.1 <= 0 ==> r.0 == 0
    ensures i < MaxVarintLen64 ==> r.0 < Pow2(64 - 7 * i)
    decreases |s|
  {
    if |s| == 0 then (0, 0)
    else if i == MaxVarintLen64 then (0, -(i + 1))
    else if s[0] < 128 then
      if i == MaxVarintLen64 - 1 && s[0] > 1 then (0, -(i + 1))
      else if i < MaxVarintLen64 - 1 then
        Pow2Step7(64 - 7 * i);
        (s[0], i + 1)
      else
        assert Pow2(1) == 2;
        (s[0], i + 1)
    else
      var (v, n) := UvarintFrom(s[1..], i + 1);
      if n <= 0 then (0, n)
      else
        Pow2Step7(64 - 7 * i);
        (s[0] - 128 + 128 * v, n)
  }

  /** `binary.Uvarint`. */
  function Uvarint(s: seq<Byte>): (r: (nat, int))
    ensures r.1 > 0 ==> r.1 <= |s| && r.1 <= MaxVarintLen64 && r.0 < TwoTo64
  {
    Pow2Is64();
    UvarintFrom(s, 0)
  }

  /** `binary.PutVarint`'s output for `x`. */
  function VarintBytes(x: int): seq<Byte>
  {
    UvarintBytes(ZigZag(x))
  }

  /** `binary.Varint`: the signed value and the byte count of the varint at the start of `s`. */
  function Varint(s: seq<Byte>): (r: (int, int))
    ensures r.1 > 0 ==> 0 < r.1 <= |s| && MinInt64 <= r.0 <= MaxInt64
  {
    var (u, n) := Uvarint(s);
    if n > 0 then (UnZigZagBounds(u); (UnZigZag(u), n)) else (UnZigZag(u), n)
  }

  /** Reading a varint at byte position `i` gets back any value that fits in what is left of
      64 bits, whatever follows it. */
  lemma {:induction false} UvarintFromBytes(x: nat, i: nat, rest: seq<Byte>)
    requires i < MaxVarintLen64 && x < Pow2(64 - 7 * i)
    ensures UvarintFrom(UvarintBytes(x) + rest, i) == (x, i + |UvarintBytes(x)|)
    decreases x
  {
    var s := UvarintBytes(x) + rest;
    if x < 128 {
      if i == MaxVarintLen64 - 1 {
        assert Pow2(1) == 2;
      }
    } else {
      assert i < MaxVarintLen64 - 1;
      Pow2Step7(64 - 7 * i);
      assert s[1..] == UvarintBytes(x / 128) + rest;
      UvarintFromBytes(x / 128, i + 1, rest);
    }
  }

  /** Round trip of `PutVarint` and `Varint` for every `int64`: the value comes back, the byte
      count is the encoding's width, and that width is at most `MaxVarintLen64`. */
  lemma VarintRoundTrip(x: Int64, rest: seq<Byte>)
    ensures Varint(VarintBytes(x) + rest) == (x, |VarintBytes(x)|)
    ensures |VarintBytes(x)| <= MaxVarintLen64
  {
    ZigZagBounds(x);
    Pow2Is64();
    UvarintFromBytes(ZigZag(x), 0, rest);
    UvarintFromBytes(ZigZag(x), 0, []);
    assert UvarintBytes(ZigZag(x)) + [] == UvarintBytes(ZigZag(x));
  }
}
