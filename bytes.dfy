/**
 * The persisted files store native 32-bit signed integers in little-endian byte order
 * (the layout a write of an `int` produces on the targets the game is built for).
 */
module Bytes {

  newtype byte = x: int | 0 <= x < 256

  const TwoTo32: int := 0x1_0000_0000
  const TwoTo31: int := 0x8000_0000

  /** Whether `x` fits a 32-bit signed integer. */
  predicate IsInt32(x: int) { -TwoTo31 <= x < TwoTo31 }

  function Pow256(k: nat): (p: nat)
    ensures p > 0
  {
    if k == 0 then 1 else 256 * Pow256(k - 1)
  }

  /** The unsigned number whose bytes, least significant first, are `b`. */
  function FromLittleEndian(b: seq<byte>): (u: nat)
    ensures u < Pow256(|b|)
  {
    if b == [] then 0 else b[0] as nat + 256 * FromLittleEndian(b[1..])
  }

  /** The `k` low bytes of `u`, least significant first. */
  function ToLittleEndian(u: nat, k: nat): (b: seq<byte>)
    ensures |b| == k
  {
    if k == 0 then [] else [(u % 256) as byte] + ToLittleEndian(u / 256, k - 1)
  }

  lemma {:induction false} FromToLittleEndian(u: nat, k: nat)
    requires u < Pow256(k)
    ensures FromLittleEndian(ToLittleEndian(u, k)) == u
  {
    if k > 0 {
      var b := ToLittleEndian(u, k);
      assert b[1..] == ToLittleEndian(u / 256, k - 1);
      FromToLittleEndian(u / 256, k - 1);
    }
  }

  lemma {:induction false} ToFromLittleEndian(b: seq<byte>)
    ensures ToLittleEndian(FromLittleEndian(b), |b|) == b
  {
    if b != [] {
      var u := FromLittleEndian(b);
      assert u % 256 == b[0] as nat && u / 256 == FromLittleEndian(b[1..]);
      ToFromLittleEndian(b[1..]);
      assert b == [b[0]] + b[1..];
    }
  }

  /** Zero bytes after the last one add nothing to the number. */
  lemma {:induction false} FromLittleEndianZeros(b: seq<byte>, zeros: seq<byte>)
    requires forall k :: 0 <= k < |zeros| ==> zeros[k] == 0
    ensures FromLittleEndian(b + zeros) == FromLittleEndian(b)
  {
    if b == [] {
      ZerosAreZero(zeros);
      assert b + zeros == zeros;
    } else {
      assert (b + zeros)[1..] == b[1..] + zeros;
      FromLittleEndianZeros(b[1..], zeros);
    }
  }

  lemma {:induction false} ZerosAreZero(zeros: seq<byte>)
    requires forall k :: 0 <= k < |zeros| ==> zeros[k] == 0
    ensures FromLittleEndian(zeros) == 0
  {
    if zeros != [] {
      ZerosAreZero(zeros[1..]);
    }
  }

  /** The four bytes of the low 32 bits of `x`, two's complement, least significant first. */
  function EncodeInt32(x: int): (b: seq<byte>)
    ensures |b| == 4
  {
    ToLittleEndian(x % TwoTo32, 4)
  }

  /** The signed 32-bit integer whose little-endian bytes are `b`. */
  function DecodeInt32(b: seq<byte>): (x: int)
    requires |b| == 4
    ensures IsInt32(x)
  {
    assert Pow256(4) == TwoTo32;
    var u := FromLittleEndian(b);
    if u >= TwoTo31 then u - TwoTo32 else u
  }

  lemma DecodeEncodeInt32(x: int)
    requires IsInt32(x)
    ensures DecodeInt32(EncodeInt32(x)) == x
  {
    assert Pow256(4) == TwoTo32;
    FromToLittleEndian(x % TwoTo32, 4);
  }

  lemma EncodeDecodeInt32(b: seq<byte>)
    requires |b| == 4
    ensures EncodeInt32(DecodeInt32(b)) == b
  {
    assert Pow256(4) == TwoTo32;
    assert DecodeInt32(b) % TwoTo32 == FromLittleEndian(b);
    ToFromLittleEndian(b);
  }
}
