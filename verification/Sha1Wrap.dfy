/** The string front ends of src/bin/sha1wrap.c. */
module Sha1Wrap {
  import opened Fips180
  import Sha1
  import opened Options

  const HEXTAB: string := "0123456789abcdef"

  /** The entry of HEXTAB for one nibble. */
  function Digit(x: Byte): (c: char)
    requires x < 16
    ensures c in HEXTAB
  {
    if x == 0 then HEXTAB[0] else if x == 1 then HEXTAB[1] else if x == 2 then HEXTAB[2] else if x == 3 then HEXTAB[3]
    else if x == 4 then HEXTAB[4] else if x == 5 then HEXTAB[5] else if x == 6 then HEXTAB[6] else if x == 7 then HEXTAB[7]
    else if x == 8 then HEXTAB[8] else if x == 9 then HEXTAB[9] else if x == 10 then HEXTAB[10] else if x == 11 then HEXTAB[11]
    else if x == 12 then HEXTAB[12] else if x == 13 then HEXTAB[13] else if x == 14 then HEXTAB[14] else HEXTAB[15]
  }

  function High(b: Byte): (x: Byte)
    ensures x < 16
  {
    (b >> 4) & 0x0f
  }

  function Low(b: Byte): (x: Byte)
    ensures x < 16
  {
    b & 0x0f
  }

  /** Two digits a byte, the high nibble first. */
  function Hex(bytes: seq<Byte>): (s: string)
    ensures |s| == 2 * |bytes|
  {
    if bytes == [] then [] else Hex(bytes[..|bytes| - 1]) + [Digit(High(bytes[|bytes| - 1])), Digit(Low(bytes[|bytes| - 1]))]
  }

  /** What a reader of the string does: the value of one digit. */
  function Nibble(c: char): Option<Byte> {
    if c == '0' then Some(0) else if c == '1' then Some(1) else if c == '2' then Some(2) else if c == '3' then Some(3)
    else if c == '4' then Some(4) else if c == '5' then Some(5) else if c == '6' then Some(6) else if c == '7' then Some(7)
    else if c == '8' then Some(8) else if c == '9' then Some(9) else if c == 'a' then Some(10) else if c == 'b' then Some(11)
    else if c == 'c' then Some(12) else if c == 'd' then Some(13) else if c == 'e' then Some(14) else if c == 'f' then Some(15)
    else None
  }

  function Join(high: Byte, low: Byte): Byte {
    (high << 4) | low
  }

  function Unhex(s: string): Option<seq<Byte>> {
    if s == [] then Some([])
    else if |s| == 1 then None
    else
      var rest := Unhex(s[..|s| - 2]);
      var high, low := Nibble(s[|s| - 2]), Nibble(s[|s| - 1]);
      if rest.None? || high.None? || low.None? then None else Some(rest.value + [Join(high.value, low.value)])
  }

  lemma DigitDecodes(x: Byte)
    requires x < 16
    ensures Nibble(Digit(x)) == Some(x)
  {
    if x < 4 {
      assert x == 0 || x == 1 || x == 2 || x == 3;
    } else if x < 8 {
      assert x == 4 || x == 5 || x == 6 || x == 7;
    } else if x < 12 {
      assert x == 8 || x == 9 || x == 10 || x == 11;
    } else {
      assert x == 12 || x == 13 || x == 14 || x == 15;
    }
  }

  /** The digits are those of lower-case hexadecimal, two for a byte. */
  lemma {:induction false} HexDigits(bytes: seq<Byte>)
    ensures |Hex(bytes)| == 2 * |bytes|
    ensures forall i :: 0 <= i < |Hex(bytes)| ==> '0' <= Hex(bytes)[i] <= '9' || 'a' <= Hex(bytes)[i] <= 'f'
  {
    if bytes != [] {
      var b := bytes[|bytes| - 1];
      HexDigits(bytes[..|bytes| - 1]);
      OneDigit(High(b));
      OneDigit(Low(b));
      hide Digit, High, Low;
    }
  }

  lemma OneDigit(x: Byte)
    requires x < 16
    ensures '0' <= Digit(x) <= '9' || 'a' <= Digit(x) <= 'f'
  {
  }

  lemma NibblesJoin(b: Byte)
    ensures Join(High(b), Low(b)) == b
  {
  }

  lemma UnhexAppend(s: string, bytes: seq<Byte>, b: Byte)
    requires Unhex(s) == Some(bytes)
    ensures Unhex(s + [Digit(High(b)), Digit(Low(b))]) == Some(bytes + [b])
  {
    DigitDecodes(High(b));
    DigitDecodes(Low(b));
    NibblesJoin(b);
    hide Digit, High, Low, Join, Nibble;
    var more := s + [Digit(High(b)), Digit(Low(b))];
    assert more[..|more| - 2] == s;
  }

  /** The hexadecimal form loses nothing. */
  lemma {:induction false} HexRoundTrip(bytes: seq<Byte>)
    ensures Unhex(Hex(bytes)) == Some(bytes)
  {
    hide Digit, High, Low, Unhex;
    if bytes == [] {
      UnhexEmpty();
    } else {
      var rest, b := bytes[..|bytes| - 1], bytes[|bytes| - 1];
      HexRoundTrip(rest);
      UnhexAppend(Hex(rest), rest, b);
      assert bytes == rest + [b];
    }
  }

  lemma UnhexEmpty()
    ensures Unhex([]) == Some([])
  {
  }

  /** _sha1_to_string: the digits are stored at 2i and 2i + 1. */
  method ToString(hashout: array<Byte>) returns (sha1: array<char>)
    requires hashout.Length == 20
    ensures fresh(sha1) && sha1[..] == Hex(hashout[..])
  {
    hide Digit, High, Low;
    sha1 := new char[40];
    for i := 0 to 20
      invariant sha1[..2 * i] == Hex(hashout[..i])
    {
      sha1[2 * i] := Digit(High(hashout[i]));
      sha1[2 * i + 1] := Digit(Low(hashout[i]));
      assert hashout[..i + 1][..i] == hashout[..i];
    }
    assert hashout[..20] == hashout[..];
    assert sha1[..40] == sha1[..];
  }

  /** The bytes that a sequence of read results delivers: read returns 0 at the end of the file. */
  function Delivered(chunks: seq<seq<Byte>>): seq<Byte> {
    if chunks == [] || chunks[0] == [] then [] else chunks[0] + Delivered(chunks[1..])
  }

  /** Nonempty reads deliver what they hold, in order, and before whatever comes after them. */
  lemma {:induction false} DeliveredInOrder(a: seq<seq<Byte>>, b: seq<seq<Byte>>)
    requires forall i :: 0 <= i < |a| ==> a[i] != []
    ensures Delivered(a + b) == Delivered(a) + Delivered(b)
  {
    if a == [] {
      assert a + b == b;
    } else {
      assert (a + b)[1..] == a[1..] + b;
      DeliveredInOrder(a[1..], b);
    }
  }

  lemma DeliveredOne(x: seq<Byte>)
    ensures Delivered([x]) == x
  {
    assert Delivered([x][1..]) == [];
  }

  /** An empty read is the end of the file. */
  lemma NothingAfterTheEnd(b: seq<seq<Byte>>)
    ensures Delivered([[]] + b) == []
  {
  }

  /** The reads are those of a file with that content: nonempty pieces from cut to cut, and an empty
      read at the end. */
  ghost predicate ReadsOf(chunks: seq<seq<Byte>>, content: seq<Byte>, cuts: seq<nat>) {
    && |cuts| == |chunks| > 0 && cuts[0] == 0 && cuts[|cuts| - 1] == |content| && chunks[|chunks| - 1] == []
    && (forall i, j :: 0 <= i < j < |cuts| ==> cuts[i] < cuts[j])
    && forall i :: 0 <= i < |cuts| - 1 ==> IsPiece(chunks[i], content, cuts, i)
  }

  predicate IsPiece(x: seq<Byte>, content: seq<Byte>, cuts: seq<nat>, i: nat)
    requires i < |cuts| - 1
  {
    cuts[i] <= cuts[i + 1] <= |content| && x == content[cuts[i]..cuts[i + 1]]
  }

  lemma {:induction false} PiecesDeliver(chunks: seq<seq<Byte>>, content: seq<Byte>, cuts: seq<nat>, n: nat)
    requires ReadsOf(chunks, content, cuts) && n < |cuts|
    ensures cuts[n] <= |content| && Delivered(chunks[..n]) == content[..cuts[n]]
    ensures forall i :: 0 <= i < n ==> chunks[..n][i] != []
  {
    if n > 0 {
      PiecesDeliver(chunks, content, cuts, n - 1);
      assert chunks[..n] == chunks[..n - 1] + [chunks[n - 1]];
      DeliveredInOrder(chunks[..n - 1], [chunks[n - 1]]);
      DeliveredOne(chunks[n - 1]);
      assert IsPiece(chunks[n - 1], content, cuts, n - 1) && cuts[n - 1] < cuts[n];
      assert content[..cuts[n]] == content[..cuts[n - 1]] + content[cuts[n - 1]..cuts[n]];
    }
  }

  /** However the reads cut a file, and whatever is read after its end, they deliver its content. */
  lemma ReadsDeliver(chunks: seq<seq<Byte>>, content: seq<Byte>, cuts: seq<nat>, after: seq<seq<Byte>>)
    requires ReadsOf(chunks, content, cuts)
    ensures Delivered(chunks + after) == content
  {
    var n := |chunks| - 1;
    PiecesDeliver(chunks, content, cuts, n);
    assert chunks + after == chunks[..n] + ([[]] + after);
    DeliveredInOrder(chunks[..n], [[]] + after);
    NothingAfterTheEnd(after);
    assert content[..|content|] == content;
  }

  /** The string of some bytes. */
  function HexSha1(bytes: seq<Byte>): string {
    Hex(Fips180.Sha1(bytes))
  }

  /** What sha1_file gives, if the open succeeds, and sha1_buffer, which hashes nothing when both
      buffers are empty. */
  function FileString(isOpen: bool, chunks: seq<seq<Byte>>): Option<string> {
    if isOpen then Some(HexSha1(Delivered(chunks))) else None
  }

  function BufferString(buf1: seq<Byte>, buf2: seq<Byte>): Option<string> {
    if |buf1 + buf2| < 1 then None else Some(HexSha1(buf1 + buf2))
  }

  /** sha1_file, given whether the open succeeds and what its reads return. */
  method File(isOpen: bool, chunks: seq<seq<Byte>>) returns (sha1: Option<string>)
    ensures sha1 == FileString(isOpen, chunks)
  {
    hide Hex, Fips180.Sha1, Sha1.Counts, Sha1.Packed, Sha1.Tail, HashValue;
    if !isOpen {
      return None;
    }
    var ctx := new Sha1.Context();
    var hashout := new Byte[20];
    var i := 0;
    while i < |chunks| && |chunks[i]| > 0
      invariant i <= |chunks| && ctx.Valid() && fresh(ctx) && fresh(ctx.H) && fresh(ctx.W)
      invariant ctx.message + Delivered(chunks[i..]) == Delivered(chunks)
    {
      ghost var before := ctx.message;
      ctx.Update(chunks[i]);
      assert chunks[i..][1..] == chunks[i + 1..];
      assert before + (chunks[i] + Delivered(chunks[i + 1..])) == ctx.message + Delivered(chunks[i + 1..]);
      i := i + 1;
    }
    assert ctx.message == Delivered(chunks);
    ctx.Final(hashout);
    var s := ToString(hashout);
    sha1 := Some(s[..]);
  }

  /** sha1_buffer */
  method Buffer(buf1: seq<Byte>, buf2: seq<Byte>) returns (sha1: Option<string>)
    ensures sha1 == BufferString(buf1, buf2)
  {
    hide Hex, Fips180.Sha1, Sha1.Counts, Sha1.Packed, Sha1.Tail, HashValue;
    var buf := buf1 + buf2;
    if |buf| < 1 {
      return None;
    }
    var ctx := new Sha1.Context();
    var hashout := new Byte[20];
    ctx.Update(buf);
    assert ctx.message == buf;
    ctx.Final(hashout);
    var s := ToString(hashout);
    sha1 := Some(s[..]);
  }

  /** However the reads cut a file and however its bytes are spread over two buffers: the string
      reads back as the digest of the content, and the two front ends give one string for the same
      bytes, unless there are no bytes at all. */
  lemma SameString(chunks: seq<seq<Byte>>, content: seq<Byte>, cuts: seq<nat>, after: seq<seq<Byte>>,
                   buf1: seq<Byte>, buf2: seq<Byte>)
    requires ReadsOf(chunks, content, cuts) && content == buf1 + buf2
    ensures FileString(true, chunks + after) == BufferString(buf1, buf2) <==> content != []
    ensures var s := FileString(true, chunks + after);
            s.Some? && |s.value| == 40 && Unhex(s.value) == Some(Fips180.Sha1(content))
  {
    ReadsDeliver(chunks, content, cuts, after);
    hide Fips180.Sha1, Hex, Unhex, Delivered;
    HexRoundTrip(Fips180.Sha1(content));
  }
}
