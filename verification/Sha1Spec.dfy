/** SHA-1 as FIPS 180-4 defines it, on sequences of bytes.

    Nothing here follows the C code: rounds, schedule, padding and digest are the
    standard's own recurrences, and they are what the streaming context is proved against. */
module Fips180 {

  type Byte = bv8
  type Word = bv32

  /** The hash value H(i), and also the five working variables of section 6.1.2. */
  datatype Chain = Chain(a: Word, b: Word, c: Word, d: Word, e: Word)

  /** Section 3.2: the left rotation. */
  function Rotl(x: Word, n: nat): Word
    requires n < 32
  {
    x.RotateLeft(n)
  }

  /** Section 4.1.1. */
  function Ch(x: Word, y: Word, z: Word): Word { (x & y) ^ (!x & z) }

  function Parity(x: Word, y: Word, z: Word): Word { x ^ y ^ z }

  function Maj(x: Word, y: Word, z: Word): Word { (x & y) ^ (x & z) ^ (y & z) }

  function F(t: nat, x: Word, y: Word, z: Word): Word {
    if t < 20 then Ch(x, y, z)
    else if t < 40 then Parity(x, y, z)
    else if t < 60 then Maj(x, y, z)
    else Parity(x, y, z)
  }

  /** Section 4.2.1. */
  function K(t: nat): Word {
    if t < 20 then 0x5a827999
    else if t < 40 then 0x6ed9eba1
    else if t < 60 then 0x8f1bbcdc
    else 0xca62c1d6
  }

  /** Section 5.3.1. */
  function InitialValue(): Chain {
    Chain(0x67452301, 0xefcdab89, 0x98badcfe, 0x10325476, 0xc3d2e1f0)
  }

  /** Section 6.1.2, step 1: one word from four earlier ones. */
  function Mix(x: Word, y: Word, z: Word, u: Word): Word {
    Rotl(x ^ y ^ z ^ u, 1)
  }

  /** The first t words of the message schedule. */
  function Schedule(block: seq<Word>, t: nat): (w: seq<Word>)
    requires |block| == 16 <= t
    ensures |w| == t && w[..16] == block
  {
    if t == 16 then block
    else
      var w := Schedule(block, t - 1);
      w + [Mix(w[t - 4], w[t - 9], w[t - 15], w[t - 17])]
  }

  function Sum(a: Word, f: Word, e: Word, k: Word, w: Word): Word {
    a + f + e + k + w
  }

  /** Section 6.1.2, step 3: one round. */
  function Round(s: Chain, t: nat, w: Word): Chain {
    Chain(Sum(Rotl(s.a, 5), F(t, s.b, s.c, s.d), s.e, K(t), w), s.a, Rotl(s.b, 30), s.c, s.d)
  }

  /** The working variables after the first t rounds. */
  function Rounds(w: seq<Word>, h: Chain, t: nat): Chain
    requires t <= |w|
  {
    if t == 0 then h else Round(Rounds(w, h, t - 1), t - 1, w[t - 1])
  }

  /** Section 3.2: addition modulo 2^32. */
  function Plus(x: Word, y: Word): Word {
    x + y
  }

  /** Section 6.1.2, step 4: the intermediate hash value. */
  function Add(h: Chain, s: Chain): Chain {
    Chain(Plus(h.a, s.a), Plus(h.b, s.b), Plus(h.c, s.c), Plus(h.d, s.d), Plus(h.e, s.e))
  }

  /** Section 6.1.2: one block. */
  function Compress(h: Chain, block: seq<Word>): Chain
    requires |block| == 16
  {
    Add(h, Rounds(Schedule(block, 80), h, 80))
  }

  /** One more low-order byte. */
  function Push(w: Word, x: Byte): Word {
    (w << 8) | (x as Word)
  }

  /** Big-endian value of up to four bytes. */
  function BigEndianWord(b: seq<Byte>): Word
    requires |b| <= 4
  {
    if |b| == 0 then 0 else Push(BigEndianWord(b[..|b| - 1]), b[|b| - 1])
  }

  /** Section 5.2.1: the sixteen words of a 64-byte block. */
  function Parse(b: seq<Byte>): (words: seq<Word>)
    requires |b| == 64
    ensures |words| == 16
  {
    seq(16, j requires 0 <= j < 16 => BigEndianWord(b[4 * j..4 * j + 4]))
  }

  /** Section 6.1.2: the hash value H(i) after the first i blocks of m. */
  function HashValue(m: seq<Byte>, i: nat): Chain
    requires 64 * i <= |m|
  {
    if i == 0 then InitialValue()
    else Compress(HashValue(m, i - 1), Parse(m[64 * (i - 1)..64 * i]))
  }

  function Zeros(n: nat): (z: seq<Byte>) {
    seq(n, _ => 0)
  }

  function ByteOf(k: nat): Byte
    requires k < 256
  {
    k as Byte
  }

  function LowByte(n: nat): Byte {
    ByteOf(n % 256)
  }

  /** The k low-order bytes of n, most significant first. */
  function BigEndianNat(n: nat, k: nat): (b: seq<Byte>)
    ensures |b| == k
  {
    if k == 0 then [] else BigEndianNat(n / 256, k - 1) + [LowByte(n)]
  }

  /** Section 5.1.1: the number of zero bytes, the least solution of 1 + n + z = 56 modulo 64. */
  function ZeroCount(n: nat): nat {
    (55 - n) % 64
  }

  /** Section 5.1.1. The standard only defines messages shorter than 2^61 bytes;
      BigEndianNat continues it by the length modulo 2^64. */
  function Pad(m: seq<Byte>): seq<Byte> {
    m + [0x80] + Zeros(ZeroCount(|m|)) + BigEndianNat(8 * |m|, 8)
  }

  function WordBytes(w: Word): (b: seq<Byte>)
    ensures |b| == 4
  {
    [(w >> 24) as Byte, ((w >> 16) & 0xff) as Byte, ((w >> 8) & 0xff) as Byte, (w & 0xff) as Byte]
  }

  function ChainBytes(h: Chain): (b: seq<Byte>)
    ensures |b| == 20
  {
    WordBytes(h.a) + WordBytes(h.b) + WordBytes(h.c) + WordBytes(h.d) + WordBytes(h.e)
  }

  /** The message digest: H(N) of the padded message. */
  function Sha1(m: seq<Byte>): (digest: seq<Byte>)
    ensures |digest| == 20
  {
    ChainBytes(HashValue(Pad(m), |Pad(m)| / 64))
  }

  lemma PadLength(m: seq<Byte>)
    ensures |Pad(m)| == |m| + 1 + ZeroCount(|m|) + 8
  {
    assert |m + [0x80] + Zeros(ZeroCount(|m|))| == |m| + 1 + ZeroCount(|m|);
  }

  /** The padding ends on a block boundary, and no smaller number of zero bytes would. */
  lemma PadIsLeast(m: seq<Byte>, fewer: nat)
    ensures |Pad(m)| % 64 == 0
    ensures fewer < ZeroCount(|m|) ==> (|m| + 1 + fewer + 8) % 64 != 0
  {
    hide Pad;
    PadLength(m);
    var r := |m| % 64;
    assert ZeroCount(|m|) == if r <= 55 then 55 - r else 119 - r;
  }

  /** H(i) depends on the first i blocks only. */
  lemma {:induction false} HashValuePrefix(m: seq<Byte>, more: seq<Byte>, i: nat)
    requires 64 * i <= |m|
    ensures HashValue(m + more, i) == HashValue(m, i)
  {
    hide Compress;
    if i > 0 {
      HashValuePrefix(m, more, i - 1);
      assert (m + more)[64 * (i - 1)..64 * i] == m[64 * (i - 1)..64 * i];
    }
  }
}
