/** Bytes, 32-bit words and the little-endian layout every iteration of the
    machine uses for the pointers stored in its memory. */
module Bytes {
  /** An unsigned 8-bit value (a memory cell, an opcode, a stream byte). */
  type Byte = b: int | 0 <= b < 256

  /** An unsigned 32-bit value (a pointer operand). */
  type U32 = n: int | 0 <= n < 0x1_0000_0000

  /** 256 to the power k: the weight of the k-th byte of a little-endian number. */
  function Pow256(k: nat): (r: nat)
    ensures r > 0
  {
    if k == 0 then 1 else 256 * Pow256(k - 1)
  }

  /** The number whose bytes, least significant first, are bs. */
  function LittleEndian(bs: seq<Byte>): (r: nat)
    ensures bs != [] ==> r % 256 == bs[0]
  {
    if bs == [] then 0 else bs[0] + 256 * LittleEndian(bs[1..])
  }

  /** k bytes never hold more than 256^k - 1. */
  lemma {:induction false} LittleEndianBound(bs: seq<Byte>)
    ensures LittleEndian(bs) < Pow256(|bs|)
  {
    if bs != [] {
      LittleEndianBound(bs[1..]);
    }
  }

  /** Appending a byte adds it with the weight of its position; this is how a
      byte-by-byte decoding loop builds the value. */
  lemma {:induction false} LittleEndianAppend(bs: seq<Byte>, b: Byte)
    ensures LittleEndian(bs + [b]) == LittleEndian(bs) + b * Pow256(|bs|)
  {
    if bs == [] {
      assert [] + [b] == [b];
    } else {
      assert (bs + [b])[1..] == bs[1..] + [b];
      LittleEndianAppend(bs[1..], b);
      calc {
        LittleEndian(bs + [b]);
        bs[0] + 256 * (LittleEndian(bs[1..]) + b * Pow256(|bs| - 1));
        bs[0] + 256 * LittleEndian(bs[1..]) + b * (256 * Pow256(|bs| - 1));
      }
    }
  }

  /** Four little-endian bytes, written out term by term. */
  lemma LittleEndianFour(bs: seq<Byte>)
    requires |bs| == 4
    ensures LittleEndian(bs) == (bs[0] as int) + 256 * (bs[1] as int) + 65536 * (bs[2] as int) + 16777216 * (bs[3] as int)
  {
    var t1, t2, t3 := bs[1..], bs[2..], bs[3..];
    assert t1[1..] == t2 && t2[1..] == t3 && t3[1..] == [];
    assert LittleEndian(t3) == bs[3];
    assert LittleEndian(t2) == (bs[2] as int) + 256 * (bs[3] as int);
    assert LittleEndian(t1) == (bs[1] as int) + 256 * (bs[2] as int) + 65536 * (bs[3] as int);
  }

  /** The four bytes a 32-bit value is stored as, least significant first. */
  function EncodeU32(n: U32): (bs: seq<Byte>)
    ensures |bs| == 4
    ensures LittleEndian(bs) == n
  {
    var q1 := n / 256;
    var q2 := q1 / 256;
    var q3 := q2 / 256;
    var bs := [n % 256, q1 % 256, q2 % 256, q3];
    LittleEndianFour(bs);
    assert n == n % 256 + 256 * q1;
    assert q1 == q1 % 256 + 256 * q2;
    assert q2 == q2 % 256 + 256 * q3;
    bs
  }

  /** Decoding four bytes and encoding the value again gives back the bytes. */
  lemma EncodeLittleEndian(bs: seq<Byte>)
    requires |bs| == 4
    ensures LittleEndian(bs) < 0x1_0000_0000
    ensures EncodeU32(LittleEndian(bs)) == bs
  {
    LittleEndianFour(bs);
    var n := LittleEndian(bs);
    assert n % 256 == bs[0];
    assert n / 256 == (bs[1] as int) + 256 * (bs[2] as int) + 65536 * (bs[3] as int);
    assert n / 256 / 256 == (bs[2] as int) + 256 * (bs[3] as int);
    assert n / 256 / 256 / 256 == bs[3];
  }

  /** A window of mem holding e holds each part of e at the matching offset. */
  lemma WindowPart(mem: seq<Byte>, pc: nat, e: seq<Byte>, i: nat, j: nat)
    requires pc + |e| <= |mem| && mem[pc..pc + |e|] == e && i <= j <= |e|
    ensures mem[pc + i..pc + j] == e[i..j]
  {
    forall k | 0 <= k < j - i
      ensures mem[pc + i..pc + j][k] == e[i..j][k]
    {
      assert mem[pc + i + k] == mem[pc..pc + |e|][i + k];
    }
  }

  /** Rust's `u8::wrapping_sub`: subtraction modulo 256. */
  function WrappingSub(a: Byte, b: Byte): (r: Byte)
    ensures r == if b <= a then a - b else a - b + 256
    ensures (r + b) % 256 == a
  {
    (a - b) % 256
  }
}
