/** Byte-level building blocks of the wire format: fixed-width big-endian
  * integers, booleans, the VAR_INT encoding, and the shape of a codec
  * (an encoder paired with a prefix decoder that hands back the unread rest). */
module Bytes {
  import opened Wrappers

  type byte = x: int | 0 <= x < 256

  const TWO_32: int := 0x1_0000_0000
  const TWO_31: int := 0x8000_0000

  predicate IsInt32(x: int) { -TWO_31 <= x < TWO_31 }
  predicate IsInt16(x: int) { -0x8000 <= x < 0x8000 }
  predicate IsInt8(x: int) { -0x80 <= x < 0x80 }

  /** Java's reading of the 32-bit pattern `u` as a signed `int`. */
  function ToInt32(u: int): (r: int)
    requires 0 <= u < TWO_32
    ensures IsInt32(r)
    ensures r % TWO_32 == u
  {
    if u < TWO_31 then u else u - TWO_32
  }

  /** Java's `int` addition `x + k`: the exact sum when it fits, otherwise wrapped round by 2^32. */
  function IntAdd(x: int, k: int): (r: int)
    ensures IsInt32(r)
    ensures (r - (x + k)) % TWO_32 == 0
    ensures IsInt32(x + k) ==> r == x + k
    ensures IsInt32(x) && 0 <= k < TWO_31 && x + k >= TWO_31 ==> r == x + k - TWO_32
  {
    ToInt32((x + k) % TWO_32)
  }

  /** Java's `(byte)` narrowing: the low eight bits read as a signed value. */
  function ToInt8(x: int): (r: int)
    ensures IsInt8(r)
    ensures (r - x) % 256 == 0
  {
    var u := x % 256;
    if u < 128 then u else u - 256
  }

  /** A codec: `decode` reads one value from the front of its input and returns it with the unread rest. */
  datatype Codec<!T> = Codec(encode: T -> seq<byte>, decode: seq<byte> -> Option<(T, seq<byte>)>)

  /** The round-trip premise every sub-codec of the model is given. */
  ghost predicate RoundTrips<T(!new)>(c: Codec<T>) {
    forall v: T, rest: seq<byte> :: c.decode(c.encode(v) + rest) == Some((v, rest))
  }

  // ---------------------------------------------------------------- INT / SHORT / BOOLEAN

  function Pow256(n: nat): (r: nat)
    ensures r >= 1
  {
    if n == 0 then 1 else 256 * Pow256(n - 1)
  }

  /** The `n` low bytes of `u`, most significant first. */
  function BigEndian(u: nat, n: nat): (r: seq<byte>)
    ensures |r| == n
  {
    if n == 0 then [] else BigEndian(u / 256, n - 1) + [u % 256]
  }

  function FromBigEndian(bs: seq<byte>): nat {
    if |bs| == 0 then 0 else FromBigEndian(bs[..|bs| - 1]) * 256 + bs[|bs| - 1]
  }

  lemma {:induction false} BigEndianRoundTrip(u: nat, n: nat)
    requires u < Pow256(n)
    ensures FromBigEndian(BigEndian(u, n)) == u
  {
    if n > 0 {
      var bs := BigEndian(u, n);
      assert bs[..n - 1] == BigEndian(u / 256, n - 1);
      BigEndianRoundTrip(u / 256, n - 1);
    }
  }

  lemma Pow256Facts()
    ensures Pow256(2) == 0x1_0000 && Pow256(4) == TWO_32
  {
    assert Pow256(1) == 256;
    assert Pow256(3) == 0x100_0000;
  }

  function EncodeInt(x: int): (r: seq<byte>)
    ensures |r| == 4
  {
    BigEndian(x % TWO_32, 4)
  }

  function DecodeInt(bs: seq<byte>): (r: Option<(int, seq<byte>)>)
    ensures r.Some? <==> |bs| >= 4
    ensures r.Some? ==> IsInt32(r.value.0) && r.value.1 == bs[4..]
  {
    if |bs| < 4 then None
    else
      var u := FromBigEndian(bs[..4]);
      Pow256Facts();
      FromBigEndianBound(bs[..4]);
      Some((ToInt32(u), bs[4..]))
  }

  lemma {:induction false} FromBigEndianBound(bs: seq<byte>)
    ensures FromBigEndian(bs) < Pow256(|bs|)
  {
    if |bs| > 0 {
      FromBigEndianBound(bs[..|bs| - 1]);
    }
  }

  lemma IntRoundTrip(x: int, rest: seq<byte>)
    requires IsInt32(x)
    ensures DecodeInt(EncodeInt(x) + rest) == Some((x, rest))
  {
    var e := EncodeInt(x);
    assert (e + rest)[..4] == e && (e + rest)[4..] == rest;
    Pow256Facts();
    BigEndianRoundTrip(x % TWO_32, 4);
  }

  function EncodeShort(x: int): (r: seq<byte>)
    ensures |r| == 2
  {
    BigEndian(x % 0x1_0000, 2)
  }

  function DecodeShort(bs: seq<byte>): (r: Option<(int, seq<byte>)>)
    ensures r.Some? <==> |bs| >= 2
    ensures r.Some? ==> IsInt16(r.value.0) && r.value.1 == bs[2..]
  {
    if |bs| < 2 then None
    else
      var u := FromBigEndian(bs[..2]);
      Pow256Facts();
      FromBigEndianBound(bs[..2]);
      Some((if u < 0x8000 then u else u - 0x1_0000, bs[2..]))
  }

  lemma ShortRoundTrip(x: int, rest: seq<byte>)
    requires IsInt16(x)
    ensures DecodeShort(EncodeShort(x) + rest) == Some((x, rest))
  {
    var e := EncodeShort(x);
    assert (e + rest)[..2] == e && (e + rest)[2..] == rest;
    Pow256Facts();
    BigEndianRoundTrip(x % 0x1_0000, 2);
  }

  function EncodeBool(b: bool): (r: seq<byte>)
    ensures |r| == 1
  {
    [if b then 1 else 0]
  }

  /** Any non-zero byte reads as `true`. */
  function DecodeBool(bs: seq<byte>): (r: Option<(bool, seq<byte>)>)
    ensures r.Some? <==> |bs| >= 1
    ensures r.Some? ==> r.value == (bs[0] != 0, bs[1..])
  {
    if |bs| < 1 then None else Some((bs[0] != 0, bs[1..]))
  }

  lemma BoolRoundTrip(b: bool, rest: seq<byte>)
    ensures DecodeBool(EncodeBool(b) + rest) == Some((b, rest))
  {
    assert (EncodeBool(b) + rest)[1..] == rest;
  }

  // ---------------------------------------------------------------- VAR_INT

  /** Seven-bit groups of `u`, least significant first, with the high bit set on every group but the last. */
  function Groups(u: nat): (r: seq<byte>)
    ensures |r| >= 1
    ensures forall i :: 0 <= i < |r| - 1 ==> r[i] >= 128
    ensures r[|r| - 1] < 128
  {
    if u < 128 then [u]
    else
      var low: byte := u % 128 + 128;
      var high := Groups(u / 128);
      assert forall i :: 1 <= i < |high| + 1 ==> ([low] + high)[i] == high[i - 1];
      [low] + high
  }

  /** The VAR_INT encoding of a Java `int`: the groups of its unsigned 32-bit pattern, at most five bytes. */
  function EncodeVarInt(x: int): (r: seq<byte>)
    requires IsInt32(x)
    ensures 1 <= |r| <= 5
  {
    GroupsLength(x % TWO_32, 5);
    Groups(x % TWO_32)
  }

  /** Reads groups while the continuation bit is set. `budget` is the number of bytes still allowed;
    * a group with the continuation bit set in the fifth byte is an error ("VarInt too big").
    * The value is the sum of the groups weighted by powers of 128. */
  function DecodeGroups(bs: seq<byte>, budget: nat): (r: Option<(nat, seq<byte>)>)
    ensures r.Some? ==> |r.value.1| < |bs|
  {
    if |bs| == 0 || budget == 0 then None
    else if bs[0] < 128 then Some((bs[0] as nat, bs[1..]))
    else
      match DecodeGroups(bs[1..], budget - 1)
      case None => None
      case Some((v, rest)) => Some((bs[0] % 128 + 128 * v, rest))
  }

  /** VAR_INT decoding: the groups' sum, truncated to 32 bits and read as a signed `int`. */
  function DecodeVarInt(bs: seq<byte>): (r: Option<(int, seq<byte>)>)
    ensures r.Some? ==> IsInt32(r.value.0) && |r.value.1| < |bs|
  {
    match DecodeGroups(bs, 5)
    case None => None
    case Some((v, rest)) => Some((ToInt32(v % TWO_32), rest))
  }

  lemma {:induction false} GroupsLength(u: nat, budget: nat)
    requires 1 <= budget && u < Pow128(budget)
    ensures |Groups(u)| <= budget
  {
    if u >= 128 {
      GroupsLength(u / 128, budget - 1);
    }
  }

  function Pow128(k: nat): (r: nat)
    ensures r >= 1
  {
    if k == 0 then 1 else 128 * Pow128(k - 1)
  }

  lemma {:induction false} GroupsDecode(u: nat, budget: nat, rest: seq<byte>)
    requires 1 <= budget && u < Pow128(budget)
    ensures DecodeGroups(Groups(u) + rest, budget) == Some((u, rest))
  {
    var bs := Groups(u) + rest;
    if u < 128 {
      assert bs[0] == u && bs[1..] == rest;
    } else {
      assert bs[0] == u % 128 + 128;
      assert bs[1..] == Groups(u / 128) + rest;
      GroupsDecode(u / 128, budget - 1, rest);
      assert bs[0] % 128 == u % 128;
      assert u % 128 + 128 * (u / 128) == u;
    }
  }

  lemma Pow128Five()
    ensures Pow128(5) == 0x8_0000_0000
  {
    assert Pow128(2) == 0x4000;
    assert Pow128(4) == 0x1000_0000;
  }

  /** VAR_INT decoding inverts VAR_INT encoding for every Java `int`, leaving what follows untouched. */
  lemma VarIntRoundTrip(x: int, rest: seq<byte>)
    requires IsInt32(x)
    ensures DecodeVarInt(EncodeVarInt(x) + rest) == Some((x, rest))
  {
    var u := x % TWO_32;
    Pow128Five();
    GroupsDecode(u, 5, rest);
    assert u % TWO_32 == u;
    Int32Pattern(x);
  }

  /** A Java `int` read back from its own 32-bit pattern. */
  lemma Int32Pattern(x: int)
    requires IsInt32(x)
    ensures ToInt32(x % TWO_32) == x
  {
    if x < 0 {
      assert x % TWO_32 == x + TWO_32;
    }
  }
}
