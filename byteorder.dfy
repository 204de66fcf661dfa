/** The fixed-width big-endian byte helpers the echo payload is built with
    (uint64ToBytes, bytesToUint64, unixNanoToBytes, bytesToUnixNano). Their Go
    source is not part of this model; they are modelled as 8-byte network
    byte order encodings of a uint64 and of an int64 nanosecond count. */
module ByteOrder {
  import opened Ints

  /** 256^n: the number of distinct n-byte strings. */
  function Pow256(n: nat): (p: nat)
    ensures p >= 1
  {
    if n == 0 then 1 else 256 * Pow256(n - 1)
  }

  /** The low n bytes of x, most significant first. */
  function BigEndian(x: nat, n: nat): (b: seq<uint8>)
    ensures |b| == n
  {
    if n == 0 then [] else BigEndian(x / 256, n - 1) + [x % 256]
  }

  /** The number a big-endian byte string stands for. */
  function FromBigEndian(b: seq<uint8>): (x: nat)
    ensures x < Pow256(|b|)
  {
    if b == [] then 0 else FromBigEndian(b[..|b| - 1]) * 256 + b[|b| - 1]
  }

  /** Decoding an encoding gives back every number that fits in n bytes. */
  lemma {:induction false} DecodeEncode(x: nat, n: nat)
    requires x < Pow256(n)
    ensures FromBigEndian(BigEndian(x, n)) == x
  {
    if n > 0 {
      var b := BigEndian(x, n);
      assert b[..n - 1] == BigEndian(x / 256, n - 1);
      DecodeEncode(x / 256, n - 1);
    }
  }

  /** Encoding a decoded string at its own width gives back the string. */
  lemma {:induction false} EncodeDecode(b: seq<uint8>)
    ensures BigEndian(FromBigEndian(b), |b|) == b
  {
    if b != [] {
      var init, last := b[..|b| - 1], b[|b| - 1];
      var x := FromBigEndian(b);
      assert x == FromBigEndian(init) * 256 + last;
      SplitByte(FromBigEndian(init), last);
      EncodeDecode(init);
      assert BigEndian(x, |b|) == BigEndian(FromBigEndian(init), |init|) + [last];
      assert b == init + [last];
    }
  }

  /** Dividing by 256 undoes appending one low byte. */
  lemma SplitByte(high: nat, low: uint8)
    ensures (high * 256 + low) / 256 == high
    ensures (high * 256 + low) % 256 == low
  {
  }

  /** uint64ToBytes: eight bytes, network byte order. */
  function Uint64ToBytes(x: uint64): (b: seq<uint8>)
    ensures |b| == 8
    ensures FromBigEndian(b) == x
  {
    DecodeEncode(x, 8);
    BigEndian(x, 8)
  }

  /** bytesToUint64: the first eight bytes read in network byte order. */
  function BytesToUint64(b: seq<uint8>): (x: uint64)
    requires |b| >= 8
    ensures BigEndian(x, 8) == b[..8]
  {
    EncodeDecode(b[..8]);
    FromBigEndian(b[..8])
  }

  /** Reading back a written uint64 recovers it. */
  lemma Uint64RoundTrip(x: uint64)
    ensures BytesToUint64(Uint64ToBytes(x)) == x
  {
    var b := Uint64ToBytes(x);
    assert b[..8] == b;
  }

  /** Writing a read uint64 reproduces the eight bytes it was read from. */
  lemma BytesRoundTrip(b: seq<uint8>)
    requires |b| >= 8
    ensures Uint64ToBytes(BytesToUint64(b)) == b[..8]
  {
  }

  /** unixNanoToBytes: the int64 nanosecond timestamp as its two's complement
      uint64 bit pattern. */
  function UnixNanoToBytes(t: int64): (b: seq<uint8>)
    ensures |b| == 8
    ensures FromBigEndian(b) == Wrap64(t)
  {
    Uint64ToBytes(Wrap64(t))
  }

  /** bytesToUnixNano: the first eight bytes as a signed nanosecond count. */
  function BytesToUnixNano(b: seq<uint8>): (t: int64)
    requires |b| >= 8
    ensures Wrap64(t) == BytesToUint64(b)
  {
    WrapInt64(BytesToUint64(b))
  }

  /** Reading back a written timestamp recovers it, negative ones included. */
  lemma UnixNanoRoundTrip(t: int64)
    ensures BytesToUnixNano(UnixNanoToBytes(t)) == t
  {
    Uint64RoundTrip(Wrap64(t));
    assert BytesToUint64(UnixNanoToBytes(t)) == Wrap64(t);
    WrapInt64OfWrap64(t);
  }
}
