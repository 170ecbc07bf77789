/** The VLAN list of a network: printed by defineNetwork and modifyNetwork, searched by
    getNodesByNetworkVlan with the regular expression (^|,)v(,|$). */
module Vlans {

  function Digit(d: nat): (c: char)
    requires d < 10
    ensures '0' <= c <= '9'
  {
    '0' + d as char
  }

  function Decimal(n: nat): (s: string)
    ensures s != [] && forall i :: 0 <= i < |s| ==> '0' <= s[i] <= '9'
  {
    if n < 10 then [Digit(n)] else Decimal(n / 10) + [Digit(n % 10)]
  }

  /** %d */
  function Text(v: int): string {
    if v < 0 then "-" + Decimal(-v) else Decimal(v)
  }

  function Value(s: string): int {
    if s == [] then 0 else 10 * Value(s[..|s| - 1]) + (s[|s| - 1] as int - '0' as int)
  }

  lemma {:induction false} DecimalDecodes(n: nat)
    ensures Value(Decimal(n)) == n
  {
    if n < 10 {
      assert [Digit(n)][..0] == [];
      assert Value([Digit(n)]) == 10 * Value([]) + n;
    } else {
      DecimalDecodes(n / 10);
      assert Decimal(n)[..|Decimal(n)| - 1] == Decimal(n / 10);
    }
  }

  /** What one list element prints: nothing when negative; a comma behind it when there is a next one. */
  function Piece(v: int, next: bool): string {
    if v < 0 then "" else Text(v) + if next then "," else ""
  }

  function Printed(vlans: seq<int>): string {
    if vlans == [] then "" else Piece(vlans[0], |vlans| > 1) + Printed(vlans[1..])
  }

  lemma PrintedFrom(vlans: seq<int>, i: nat)
    requires i <= |vlans|
    ensures Printed(vlans[i..]) == if i == |vlans| then "" else Piece(vlans[i], i + 1 < |vlans|) + Printed(vlans[i + 1..])
  {
    if i < |vlans| {
      assert vlans[i..][1..] == vlans[i + 1..];
    }
  }

  lemma PieceFirst(buf: string, v: int, next: bool, rest: string)
    ensures buf + (Piece(v, next) + rest)
         == (if v < 0 then buf else if next then buf + Text(v) + "," else buf + Text(v)) + rest
  {
    hide Text;
  }

  /** The printing loop. */
  method PrintVlans(vlans: seq<int>) returns (buf: string)
    ensures buf == Printed(vlans)
  {
    hide Text, Printed;
    buf := "";
    assert vlans[0..] == vlans;
    for i := 0 to |vlans|
      invariant buf + Printed(vlans[i..]) == Printed(vlans)
    {
      PrintedFrom(vlans, i);
      PieceFirst(buf, vlans[i], i + 1 < |vlans|, Printed(vlans[i + 1..]));
      if vlans[i] >= 0 {
        buf := buf + Text(vlans[i]);
        if i + 1 < |vlans| {
          buf := buf + ",";
        }
      }
    }
    PrintedFrom(vlans, |vlans|);
  }

  /** (^|,)word(,|$) matches s at position i. */
  predicate MatchesAt(s: string, word: string, i: nat) {
    && i + |word| <= |s|
    && (i == 0 || s[i - 1] == ',')
    && s[i..i + |word|] == word
    && (i + |word| == |s| || s[i + |word|] == ',')
  }

  predicate Matches(s: string, word: string) {
    exists i :: 0 <= i <= |s| && MatchesAt(s, word, i)
  }

  /** A word that can be matched: it has characters, and no comma among them. */
  predicate Word(s: string) {
    s != [] && ',' !in s
  }

  lemma MatchesWhole(s: string, word: string)
    requires Word(s) && Word(word)
    ensures Matches(s, word) <==> s == word
  {
    if s == word {
      assert MatchesAt(s, word, 0);
    }
  }

  lemma MatchesNothing(word: string)
    requires Word(word)
    ensures !Matches("", word)
  {
  }

  /** A match in a list is a match of its first field or a match in the rest. */
  lemma MatchesFirst(first: string, rest: string, word: string)
    requires Word(first) && Word(word)
    ensures Matches(first + "," + rest, word) <==> first == word || Matches(rest, word)
  {
    var s, n := first + "," + rest, |first| + 1;
    if first == word {
      assert MatchesAt(s, word, 0);
    }
    forall i | 0 <= i <= |rest| ensures MatchesAt(rest, word, i) ==> MatchesAt(s, word, n + i) {
      ShiftMatch(first, rest, word, i);
    }
    forall i | 0 <= i <= |s| && MatchesAt(s, word, i) ensures first == word || Matches(rest, word) {
      if i == 0 {
        FirstMatch(first, rest, word);
      } else {
        assert s[i - 1] == ',' && i >= n;
        ShiftMatch(first, rest, word, i - n);
      }
    }
  }

  lemma ShiftMatch(first: string, rest: string, word: string, i: nat)
    requires Word(word)
    ensures MatchesAt(first + "," + rest, word, |first| + 1 + i) <==> MatchesAt(rest, word, i)
  {
    var s, n := first + "," + rest, |first| + 1;
    if i + |word| <= |rest| {
      assert s[n + i..n + i + |word|] == rest[i..i + |word|];
    }
  }

  /** At the start of a list only its whole first field matches. */
  lemma FirstMatch(first: string, rest: string, word: string)
    requires Word(first) && Word(word) && MatchesAt(first + "," + rest, word, 0)
    ensures first == word
  {
    var s := first + "," + rest;
    assert s[|first|] == ',' && word == s[0..|word|];
    assert forall k :: 0 <= k < |word| ==> word[k] == s[k] != ',';
    assert forall k :: 0 <= k < |first| ==> s[k] == first[k] != ',';
    assert |word| == |first|;
  }

  lemma TextIsWord(v: int)
    ensures Word(Text(v))
  {
  }

  lemma TextSign(v: int)
    ensures Text(v) != [] && (v < 0 <==> Text(v)[0] == '-') && (v < 0 ==> Text(v)[1..] == Decimal(-v))
  {
  }

  lemma TextIsInjective(v: int, w: int)
    requires Text(v) == Text(w)
    ensures v == w
  {
    TextSign(v);
    TextSign(w);
    hide Decimal, Value;
    if v >= 0 {
      DecimalDecodes(v);
      DecimalDecodes(w);
    } else {
      DecimalDecodes(-v);
      DecimalDecodes(-w);
    }
  }

  /** The search agrees with the list: for every list of integers, with its skipped negatives and
      the trailing comma that they can leave, and for every v, the printed list matches v's
      pattern exactly when v is in the list and not negative. */
  lemma {:induction false} SearchFindsTheList(vlans: seq<int>, v: int)
    ensures Matches(Printed(vlans), Text(v)) <==> v >= 0 && v in vlans
  {
    var word := Text(v);
    TextIsWord(v);
    if vlans == [] {
      MatchesNothing(word);
    } else {
      var x, rest := vlans[0], Printed(vlans[1..]);
      SearchFindsTheList(vlans[1..], v);
      hide Matches, Text, Word;
      TextIsWord(x);
      if x < 0 {
        assert Printed(vlans) == rest;
      } else {
        if Text(x) == word {
          TextIsInjective(x, v);
        }
        if |vlans| > 1 {
          assert Printed(vlans) == Text(x) + "," + rest;
          MatchesFirst(Text(x), rest, word);
        } else {
          assert Printed(vlans) == Text(x);
          MatchesWhole(Text(x), word);
        }
      }
    }
  }

  /** A negative element at the end leaves a trailing comma behind, which the search does not mind. */
  lemma TrailingComma(v: int, w: int)
    requires v >= 0 > w
    ensures Printed([v, w]) == Text(v) + ","
  {
    hide Text;
    assert [v, w][1..] == [w] && [w][1..] == [];
    assert Printed([w]) == "" + Printed([]);
    assert Printed([v, w]) == Piece(v, true) + Printed([w]);
  }
}
