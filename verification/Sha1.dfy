/** The streaming context of src/bin/sha1.c, updated in place, proved against Fips180. */
module Sha1 {
  import opened Fips180

  // The word expressions of the C code, named so that the proofs below can hide them.

  /** The SHA_ROT macro: two shifts. */
  function Rot(x: Word, n: bv32): Word
    requires 0 < n < 32
  {
    (x << n) | (x >> (32 - n))
  }

  function ChForm(b: Word, c: Word, d: Word): Word { ((c ^ d) & b) ^ d }

  function ParityForm(b: Word, c: Word, d: Word): Word { b ^ c ^ d }

  function MajForm(b: Word, c: Word, d: Word): Word { (b & c) | (d & (b | c)) }

  function Temp(a: Word, f: Word, e: Word, w: Word, k: Word): Word { a + f + e + w + k }

  function Expand(w3: Word, w8: Word, w14: Word, w16: Word): Word { Rot(w3 ^ w8 ^ w14 ^ w16, 1) }

  lemma RotIsRotl(x: Word)
    ensures Rot(x, 1) == Rotl(x, 1)
    ensures Rot(x, 5) == Rotl(x, 5)
    ensures Rot(x, 30) == Rotl(x, 30)
  {
  }

  lemma ChRewritten(b: Word, c: Word, d: Word)
    ensures ChForm(b, c, d) == Ch(b, c, d)
  {
    assert ((c ^ d) & b) ^ d == (b & c) ^ (!b & d);
  }

  lemma MajRewritten(b: Word, c: Word, d: Word)
    ensures MajForm(b, c, d) == Maj(b, c, d)
  {
    assert (b & c) | (d & (b | c)) == (b & c) ^ (b & d) ^ (c & d);
  }

  /** The forms of Ch and Maj in the four round loops are the standard's functions. */
  lemma RoundFunctions(t: nat, b: Word, c: Word, d: Word)
    ensures t < 20 ==> ChForm(b, c, d) == F(t, b, c, d)
    ensures 40 <= t < 60 ==> MajForm(b, c, d) == F(t, b, c, d)
    ensures 20 <= t < 40 || 60 <= t ==> ParityForm(b, c, d) == F(t, b, c, d)
  {
    assert ParityForm(b, c, d) == Parity(b, c, d);
    hide Ch, Maj, Parity, ChForm, MajForm, ParityForm;
    ChRewritten(b, c, d);
    MajRewritten(b, c, d);
  }

  /** The two 32-bit halves hold the length of n bytes in bits, modulo 2^64. */
  ghost predicate Counts(hi: int, lo: int, n: nat) {
    && 0 <= hi < 0x1_0000_0000 && 0 <= lo < 0x1_0000_0000
    && hi * 0x1_0000_0000 + lo == 8 * n % 0x1_0000_0000_0000_0000
  }

  /** The carry test is right because the low half is always a multiple of 8. */
  lemma CountByte(hi: int, lo: int, n: nat)
    requires Counts(hi, lo, n)
    ensures var lo' := (lo + 8) % 0x1_0000_0000;
            Counts((hi + if lo' < 8 then 1 else 0) % 0x1_0000_0000, lo', n + 1)
  {
    var q := 8 * n / 0x1_0000_0000_0000_0000;
    var bits := hi * 0x1_0000_0000 + lo;
    assert 8 * n == q * 0x1_0000_0000_0000_0000 + bits;
    assert lo == 8 * (n - q * 0x2000_0000_0000_0000 - hi * 0x2000_0000);
    RestOf(if bits + 8 < 0x1_0000_0000_0000_0000 then q else q + 1,
           if bits + 8 < 0x1_0000_0000_0000_0000 then bits + 8 else 0, 8 * (n + 1));
    assert (lo + 8) % 0x1_0000_0000 == if lo == 0xffff_fff8 then 0 else lo + 8;
  }

  lemma RestOf(q: nat, r: nat, n: nat)
    requires n == q * 0x1_0000_0000_0000_0000 + r && r < 0x1_0000_0000_0000_0000
    ensures n % 0x1_0000_0000_0000_0000 == r
  {
  }

  /** The four bytes that SHA1_Final2 takes from one half of the length. */
  function LengthBytes(half: int): (b: seq<Byte>)
    requires 0 <= half < 0x1_0000_0000
    ensures |b| == 4
  {
    [LowByte(half / 0x100_0000), LowByte(half / 0x1_0000), LowByte(half / 0x100), LowByte(half)]
  }

  lemma BigEndianFour(n: nat, k: nat)
    ensures BigEndianNat(n, k + 4)
         == BigEndianNat(n / 0x1_0000_0000, k)
            + [LowByte(n / 0x100_0000), LowByte(n / 0x1_0000), LowByte(n / 0x100), LowByte(n)]
  {
    hide LowByte;
    var n1 := n / 256;
    var n2 := n1 / 256;
    var n3 := n2 / 256;
    assert n2 == n / 0x1_0000 && n3 == n / 0x100_0000 && n3 / 256 == n / 0x1_0000_0000;
    assert BigEndianNat(n, k + 4) == BigEndianNat(n1, k + 3) + [LowByte(n)];
    assert BigEndianNat(n1, k + 3) == BigEndianNat(n2, k + 2) + [LowByte(n1)];
    assert BigEndianNat(n2, k + 2) == BigEndianNat(n3, k + 1) + [LowByte(n2)];
    assert BigEndianNat(n3, k + 1) == BigEndianNat(n3 / 256, k) + [LowByte(n3)];
  }

  lemma LowByteOnly(n: nat, q: nat, r: nat)
    requires n == 256 * q + r
    ensures LowByte(n) == LowByte(r)
  {
    hide ByteOf;
    assert n % 256 == r % 256;
  }

  lemma SameBytes(n: nat, q: nat, half: nat)
    requires half < 0x1_0000_0000 && n == 0x1_0000_0000 * q + half
    ensures [LowByte(n / 0x100_0000), LowByte(n / 0x1_0000), LowByte(n / 0x100), LowByte(n)] == LengthBytes(half)
  {
    hide LowByte;
    LowByteOnly(n / 0x100_0000, q, half / 0x100_0000);
    LowByteOnly(n / 0x1_0000, 0x100 * q, half / 0x1_0000);
    LowByteOnly(n / 0x100, 0x1_0000 * q, half / 0x100);
    LowByteOnly(n, 0x100_0000 * q, half);
  }

  lemma HalvesOfBits(bits: nat, hi: int, lo: int)
    requires 0 <= hi < 0x1_0000_0000 && 0 <= lo < 0x1_0000_0000
    requires hi * 0x1_0000_0000 + lo == bits % 0x1_0000_0000_0000_0000
    ensures bits == 0x1_0000_0000 * (bits / 0x1_0000_0000) + lo
    ensures bits / 0x1_0000_0000 == 0x1_0000_0000 * (bits / 0x1_0000_0000_0000_0000) + hi
  {
  }

  /** The two halves, as SHA1_Final2 takes them apart, are the standard's length block. */
  lemma LengthIsBigEndian(hi: int, lo: int, n: nat)
    requires Counts(hi, lo, n)
    ensures LengthBytes(hi) + LengthBytes(lo) == BigEndianNat(8 * n, 8)
  {
    var bits := 8 * n;
    var high := bits / 0x1_0000_0000;
    var q := bits / 0x1_0000_0000_0000_0000;
    HalvesOfBits(bits, hi, lo);
    hide LowByte, LengthBytes, BigEndianNat, Counts;
    BigEndianFour(bits, 4);
    BigEndianFour(high, 0);
    assert BigEndianNat(high / 0x1_0000_0000, 0) == [];
    SameBytes(bits, high, lo);
    SameBytes(high, q, hi);
  }

  lemma ZerosNext(m: seq<Byte>, z: nat)
    ensures m + Zeros(0) == m
    ensures m + Zeros(z) + [0] == m + Zeros(z + 1)
  {
  }

  /** (56 - l) mod 64. */
  function Fill(l: nat): nat
    requires l < 64
  {
    if l <= 56 then 56 - l else 120 - l
  }

  /** After n bytes the zero-filling loop stops after Fill(n mod 64) steps, not before. */
  lemma FillSteps(n: nat, z: nat)
    requires z <= Fill(n % 64)
    ensures (n + z) % 64 == 56 <==> z == Fill(n % 64)
  {
    var q, l := n / 64, n % 64;
    assert n + z == if l + z < 64 then 64 * q + (l + z) else 64 * (q + 1) + (l + z - 64);
  }

  lemma FillIsZeroCount(n: nat)
    ensures Fill((n + 1) % 64) == ZeroCount(n)
  {
    var r := n % 64;
    assert (n + 1) % 64 == if r < 63 then r + 1 else 0;
    assert ZeroCount(n) == if r <= 55 then 55 - r else 119 - r;
  }

  /** The three pieces that SHA1_Final2 absorbs are the standard's padding. */
  lemma PadFromHalves(m: seq<Byte>, s: seq<Byte>, hi: int, lo: int)
    requires Counts(hi, lo, |m|) && s == m + [0x80]
    ensures Pad(m) == s + Zeros(Fill(|s| % 64)) + (LengthBytes(hi) + LengthBytes(lo))
  {
    FillIsZeroCount(|m|);
    LengthIsBigEndian(hi, lo, |m|);
  }

  function TopByte(w: Word): Byte { (w >> 24) as Byte }

  function ShiftOut(w: Word): Word { w << 8 }

  function ShiftedOut(w: Word, r: nat): Word {
    if r == 0 then w else ShiftOut(ShiftedOut(w, r - 1))
  }

  lemma ShiftOutBytes(w: Word)
    ensures [TopByte(w), TopByte(ShiftOut(w)), TopByte(ShiftOut(ShiftOut(w))), TopByte(ShiftOut(ShiftOut(ShiftOut(w))))]
         == WordBytes(w)
  {
  }

  /** The byte shifted out of a word for the r-th time is its r-th most significant. */
  lemma ShiftedOutByte(w: Word, r: nat)
    requires r < 4
    ensures TopByte(ShiftedOut(w, r)) == WordBytes(w)[r]
  {
    ShiftOutBytes(w);
    hide TopByte, ShiftOut, WordBytes;
    assert r == 0 || r == 1 || r == 2 || r == 3;
    assert ShiftedOut(w, 1) == ShiftOut(w) && ShiftedOut(w, 2) == ShiftOut(ShiftOut(w));
    assert ShiftedOut(w, 3) == ShiftOut(ShiftOut(ShiftOut(w)));
  }

  lemma SumOrder(a: Word, f: Word, e: Word, w: Word, k: Word)
    ensures Sum(a, f, e, k, w) == Temp(a, f, e, w, k)
  {
  }

  /** One iteration of the round loops, with the C form f of the round function. */
  lemma RoundStep(w: seq<Word>, h: Chain, t: nat, s: Chain, f: Word, k: Word)
    requires t < |w| && s == Rounds(w, h, t)
    requires f == F(t, s.b, s.c, s.d) && k == K(t)
    ensures Rounds(w, h, t + 1) == Chain(Temp(Rot(s.a, 5), f, s.e, w[t], k), s.a, Rot(s.b, 30), s.c, s.d)
  {
    hide F, K, Rot, Rotl, Sum, Temp;
    RotIsRotl(s.a);
    RotIsRotl(s.b);
    SumOrder(Rot(s.a, 5), f, s.e, w[t], k);
  }

  lemma ExpandIsMix(x: Word, y: Word, z: Word, u: Word)
    ensures Expand(x, y, z, u) == Mix(x, y, z, u)
  {
  }

  /** One iteration of the schedule loop. */
  lemma ScheduleStep(block: seq<Word>, t: nat, w: seq<Word>)
    requires |block| == 16 <= t && w == Schedule(block, t)
    ensures Schedule(block, t + 1) == w + [Expand(w[t - 3], w[t - 8], w[t - 14], w[t - 16])]
  {
    hide Expand, Mix;
    var x, y, z, u := w[t - 3], w[t - 8], w[t - 14], w[t - 16];
    ExpandIsMix(x, y, z, u);
    assert Schedule(block, t + 1) == w + [Mix(x, y, z, u)];
  }

  /** w and v have the same n low bytes, whatever stands above them. */
  ghost predicate Agree(w: Word, v: Word, n: nat) {
    if n == 0 then true
    else if n == 1 then w & 0xff == v & 0xff
    else if n == 2 then w & 0xffff == v & 0xffff
    else if n == 3 then w & 0xff_ffff == v & 0xff_ffff
    else w == v
  }

  /** Shifting one more byte in pushes the stale bytes up, and out with the fourth. */
  lemma ShiftIn(w: Word, v: Word, x: Byte, n: nat)
    requires n < 4 && (n > 0 ==> Agree(w, v, n))
    ensures Agree(Push(w, x), Push(v, x), n + 1)
  {
  }

  lemma BigEndianPush(b: seq<Byte>, x: Byte)
    requires |b| < 4
    ensures BigEndianWord(b + [x]) == Push(BigEndianWord(b), x)
  {
    assert (b + [x])[..|b|] == b;
  }

  /** The buffered bytes: what has been absorbed since the last whole block. */
  function Tail(m: seq<Byte>): (t: seq<Byte>)
    ensures |t| == |m| % 64
  {
    m[|m| - |m| % 64..]
  }

  /** The whole words of the current block. */
  ghost predicate Whole(w: seq<Word>, b: seq<Byte>)
    requires |w| == 80 && |b| <= 64
  {
    forall j :: 0 <= j && 4 * j + 4 <= |b| ==> w[j] == BigEndianWord(b[4 * j..4 * j + 4])
  }

  /** The partial word, above whose bytes anything may remain from earlier blocks. */
  ghost predicate Partial(w: seq<Word>, b: seq<Byte>)
    requires |w| == 80 && |b| <= 64
  {
    var p := |b| / 4;
    4 * p < |b| ==> Agree(w[p], BigEndianWord(b[4 * p..]), |b| - 4 * p)
  }

  /** The packing of W with the bytes b buffered. */
  ghost predicate Packed(w: seq<Word>, b: seq<Byte>) {
    |w| == 80 && |b| <= 64 && Whole(w, b) && Partial(w, b)
  }

  lemma PackByte(w: seq<Word>, b: seq<Byte>, x: Byte, y: Word)
    requires Packed(w, b) && |b| < 64
    requires y == Push(w[|b| / 4], x)
    ensures Packed(w[|b| / 4 := y], b + [x])
  {
    hide BigEndianWord, Agree, Push, Whole;
    var p := |b| / 4;
    ShiftIn(w[p], BigEndianWord(b[4 * p..]), x, |b| - 4 * p);
    BigEndianPush(b[4 * p..], x);
    assert (b + [x])[4 * p..] == b[4 * p..] + [x];
    PackWhole(w, b, x, y, p);
  }

  lemma PackWhole(w: seq<Word>, b: seq<Byte>, x: Byte, y: Word, p: nat)
    requires |w| == 80 && p == |b| / 4 < 16 && Whole(w, b)
    requires |b| == 4 * p + 3 ==> Agree(y, BigEndianWord(b[4 * p..] + [x]), 4)
    ensures Whole(w[p := y], b + [x])
  {
    hide BigEndianWord;
    var b' := b + [x];
    if |b| == 4 * p + 3 {
      assert y == BigEndianWord(b[4 * p..] + [x]);
    }
    hide Agree;
    forall j | 0 <= j && 4 * j + 4 <= |b'| ensures w[p := y][j] == BigEndianWord(b'[4 * j..4 * j + 4]) {
      if j < p {
        assert b'[4 * j..4 * j + 4] == b[4 * j..4 * j + 4];
      } else {
        assert j == p && b'[4 * j..4 * j + 4] == b[4 * p..] + [x];
      }
    }
  }

  lemma PackedEmpty(w: seq<Word>)
    requires |w| == 80
    ensures Packed(w, [])
  {
  }

  lemma PackedBlock(w: seq<Word>, b: seq<Byte>)
    requires Packed(w, b) && |b| == 64
    ensures w[..16] == Parse(b)
  {
  }

  lemma TailByte(m: seq<Byte>, x: Byte)
    ensures Tail(m + [x]) == if |Tail(m)| < 63 then Tail(m) + [x] else []
  {
    var r := |m| % 64;
    assert (|m| + 1) % 64 == if r < 63 then r + 1 else 0;
  }

  /** The byte that completes block i + 1. */
  lemma CompleteBlock(m: seq<Byte>, x: Byte, i: nat)
    requires |m| == 64 * i + 63
    ensures HashValue(m + [x], i + 1) == Compress(HashValue(m, i), Parse(m[64 * i..] + [x]))
  {
    hide Compress, Parse;
    HashValuePrefix(m, [x], i);
    assert (m + [x])[64 * i..64 * (i + 1)] == m[64 * i..] + [x];
  }

  /** One more byte: either the tail grows, or the block it completes is hashed. */
  lemma AbsorbByte(m: seq<Byte>, x: Byte)
    ensures HashValue(m + [x], |m + [x]| / 64)
         == if |Tail(m)| < 63 then HashValue(m, |m| / 64)
            else Compress(HashValue(m, |m| / 64), Parse(Tail(m) + [x]))
  {
    hide Compress, Parse, HashValue;
    var i, r := |m| / 64, |m| % 64;
    if r < 63 {
      HashValuePrefix(m, [x], i);
    } else {
      CompleteBlock(m, x, i);
    }
  }

  /** The four round loops of shaHashBlock, on an expanded schedule. */
  method RunRounds(W: seq<Word>, h: Chain) returns (s: Chain)
    requires |W| == 80
    ensures s == Rounds(W, h, 80)
  {
    hide ChForm, ParityForm, MajForm, F, Rot, Temp, Round;
    var A, B, C, D, E := h.a, h.b, h.c, h.d, h.e;
    var temp: Word;
    for t := 0 to 20
      invariant Chain(A, B, C, D, E) == Rounds(W, h, t)
    {
      RoundFunctions(t, B, C, D);
      RoundStep(W, h, t, Chain(A, B, C, D, E), ChForm(B, C, D), 0x5a827999);
      temp := Temp(Rot(A, 5), ChForm(B, C, D), E, W[t], 0x5a827999);
      E := D; D := C; C := Rot(B, 30); B := A; A := temp;
    }
    for t := 20 to 40
      invariant Chain(A, B, C, D, E) == Rounds(W, h, t)
    {
      RoundFunctions(t, B, C, D);
      RoundStep(W, h, t, Chain(A, B, C, D, E), ParityForm(B, C, D), 0x6ed9eba1);
      temp := Temp(Rot(A, 5), ParityForm(B, C, D), E, W[t], 0x6ed9eba1);
      E := D; D := C; C := Rot(B, 30); B := A; A := temp;
    }
    for t := 40 to 60
      invariant Chain(A, B, C, D, E) == Rounds(W, h, t)
    {
      RoundFunctions(t, B, C, D);
      RoundStep(W, h, t, Chain(A, B, C, D, E), MajForm(B, C, D), 0x8f1bbcdc);
      temp := Temp(Rot(A, 5), MajForm(B, C, D), E, W[t], 0x8f1bbcdc);
      E := D; D := C; C := Rot(B, 30); B := A; A := temp;
    }
    for t := 60 to 80
      invariant Chain(A, B, C, D, E) == Rounds(W, h, t)
    {
      RoundFunctions(t, B, C, D);
      RoundStep(W, h, t, Chain(A, B, C, D, E), ParityForm(B, C, D), 0xca62c1d6);
      temp := Temp(Rot(A, 5), ParityForm(B, C, D), E, W[t], 0xca62c1d6);
      E := D; D := C; C := Rot(B, 30); B := A; A := temp;
    }
    s := Chain(A, B, C, D, E);
  }

  class Context {
    const H: array<Word>
    const W: array<Word>
    var lenW: nat
    var sizeHi: nat
    var sizeLo: nat
    /** The bytes absorbed since the last initialization. */
    ghost var message: seq<Byte>

    ghost predicate Shape()
      reads this
    {
      H.Length == 5 && W.Length == 80 && H != W
    }

    function Hash(): Chain
      requires H.Length == 5
      reads this, H
    {
      Chain(H[0], H[1], H[2], H[3], H[4])
    }

    ghost predicate Valid()
      reads this, H, W
    {
      && Shape()
      && lenW == |message| % 64
      && Counts(sizeHi, sizeLo, |message|)
      && Hash() == HashValue(message, |message| / 64)
      && Packed(W[..], Tail(message))
    }

    constructor ()
      ensures Valid() && message == []
      ensures fresh(H) && fresh(W)
    {
      H, W := new Word[5], new Word[80];
      lenW, sizeHi, sizeLo := 0, 0, 0;
      message := [];
      new;
      Init();
    }

    method Init()
      requires Shape()
      modifies this, H, W
      ensures Valid() && message == []
      ensures lenW == sizeHi == sizeLo == 0 && Hash() == InitialValue()
      ensures forall k :: 0 <= k < 80 ==> W[k] == 0
    {
      lenW := 0;
      sizeHi, sizeLo := 0, 0;
      H[0] := 0x67452301;
      H[1] := 0xefcdab89;
      H[2] := 0x98badcfe;
      H[3] := 0x10325476;
      H[4] := 0xc3d2e1f0;
      for i := 0 to 80
        invariant Hash() == InitialValue()
        invariant forall k :: 0 <= k < i ==> W[k] == 0
        modifies W
      {
        W[i] := 0;
      }
      message := [];
    }

    /** The body of the loop of SHA1_Update2. */
    method Absorb(x: Byte)
      requires Valid()
      modifies this, H, W
      ensures Valid() && message == old(message) + [x]
    {
      hide Push, Packed, Tail, HashValue, Compress, Counts;
      PackByte(W[..], Tail(message), x, Push(W[lenW / 4], x));
      TailByte(message, x);
      CountByte(sizeHi, sizeLo, |message|);
      AbsorbByte(message, x);
      W[lenW / 4] := Push(W[lenW / 4], x);
      assert Packed(W[..], Tail(message) + [x]);
      lenW := lenW + 1;
      if lenW % 64 == 0 {
        PackedBlock(W[..], Tail(message) + [x]);
        HashBlock();
        PackedEmpty(W[..]);
        lenW := 0;
      }
      sizeLo := (sizeLo + 8) % 0x1_0000_0000;
      sizeHi := (sizeHi + if sizeLo < 8 then 1 else 0) % 0x1_0000_0000;
      message := message + [x];
    }

    method Update(data: seq<Byte>)
      requires Valid()
      modifies this, H, W
      ensures Valid() && message == old(message) + data
    {
      hide Counts, Packed, Tail, HashValue;
      for i := 0 to |data|
        invariant Valid() && message == old(message) + data[..i]
      {
        Absorb(data[i]);
        assert old(message) + data[..i + 1] == old(message) + data[..i] + [data[i]];
      }
    }

    /** The zero-filling loop of SHA1_Final2. */
    method ZeroFill()
      requires Valid()
      modifies this, H, W
      ensures Valid() && message == old(message) + Zeros(Fill(|old(message)| % 64))
    {
      hide Zeros, Fill, Counts, Packed, HashValue, Tail;
      ghost var start, z := message, 0;
      ghost var n := Fill(|start| % 64);
      ZerosNext(start, 0);
      FillSteps(|start|, 0);
      while lenW != 56
        invariant Valid() && message == start + Zeros(z) && |message| == |start| + z
        invariant z <= n && (lenW == 56 <==> z == n)
        decreases n - z
      {
        Update([0]);
        ZerosNext(start, z);
        z := z + 1;
        FillSteps(|start|, z);
      }
    }

    /** Padding by absorbing: 0x80, zeros up to byte 56 of a block, the length taken beforehand. */
    method Padding()
      requires Valid()
      modifies this, H, W
      ensures Valid() && message == Pad(old(message))
    {
      ghost var m := message;
      ghost var hi, lo := sizeHi, sizeLo;
      var padlen := LengthBytes(sizeHi) + LengthBytes(sizeLo);
      hide Valid, LengthBytes, Pad, Zeros, Fill, Counts;
      Update([0x80]);
      PadFromHalves(m, message, hi, lo);
      ZeroFill();
      Update(padlen);
    }

    /** Pads, shifts the digest out of H, and starts over. */
    method Final(hashout: array<Byte>)
      requires Valid() && hashout.Length == 20
      modifies this, H, W, hashout
      ensures hashout[..] == Fips180.Sha1(old(message))
      ensures Valid() && message == []
      ensures lenW == sizeHi == sizeLo == 0 && Hash() == InitialValue()
      ensures forall k :: 0 <= k < 80 ==> W[k] == 0
    {
      hide Counts, Packed, HashValue, Tail, Pad, ChainBytes;
      Padding();
      Output(hashout);
      Init();
    }

    /** The destructive shift-out of H, a byte at a time from the top. */
    method Output(hashout: array<Byte>)
      requires Shape() && hashout.Length == 20
      modifies H, hashout
      ensures hashout[..] == ChainBytes(old(Hash()))
    {
      hide TopByte, ShiftOut, WordBytes;
      ghost var h := H[..];
      for i := 0 to 20
        invariant forall k :: 0 <= k < i ==> hashout[k] == WordBytes(h[k / 4])[k % 4]
        invariant forall k :: 0 <= k < 5 && 4 * k >= i ==> H[k] == h[k]
        invariant i % 4 != 0 ==> H[i / 4] == ShiftedOut(h[i / 4], i % 4)
      {
        ShiftedOutByte(h[i / 4], i % 4);
        hashout[i] := TopByte(H[i / 4]);
        H[i / 4] := ShiftOut(H[i / 4]);
      }
    }

    /** The in-place schedule, the round loops and the feed-forward. */
    method HashBlock()
      requires Shape()
      modifies H, W
      ensures Hash() == Compress(old(Hash()), old(W[..16]))
    {
      hide Expand, Plus, Rounds;
      ghost var block, h := W[..16], Hash();
      assert Schedule(block, 16) == block;
      hide Schedule;
      for t := 16 to 80
        invariant W[..t] == Schedule(block, t)
        invariant Hash() == h
        modifies W
      {
        ScheduleStep(block, t, W[..t]);
        W[t] := Expand(W[t - 3], W[t - 8], W[t - 14], W[t - 16]);
      }
      assert W[..] == W[..80];
      var s := RunRounds(W[..], Hash());
      H[0] := Plus(H[0], s.a);
      H[1] := Plus(H[1], s.b);
      H[2] := Plus(H[2], s.c);
      H[3] := Plus(H[3], s.d);
      H[4] := Plus(H[4], s.e);
    }
  }
}
