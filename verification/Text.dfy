/**
 The text primitives the commit metadata is built from: decimal numbers, split
 and join, hexadecimal bytes. Parsers are total and return None where the
 source's library call raises.
 */
module Text {
  import opened Common

  // ----- decimal integers

  predicate IsDigit(c: char) { '0' <= c <= '9' }

  function DigitChar(d: nat): (c: char)
    requires d < 10
    ensures IsDigit(c) && DigitValue(c) == d
  {
    ('0' as int + d) as char
  }

  function DigitValue(c: char): nat
    requires IsDigit(c)
  {
    c as int - '0' as int
  }

  ghost predicate AllDigits(s: string) {
    forall i :: 0 <= i < |s| ==> IsDigit(s[i])
  }

  function Natural(n: nat): (s: string)
    ensures |s| > 0 && AllDigits(s)
  {
    if n < 10 then [DigitChar(n)] else Natural(n / 10) + [DigitChar(n % 10)]
  }

  function Str(n: int): string {
    if n < 0 then "-" + Natural(-n) else Natural(n)
  }

  /** Digits with single underscores allowed between them, as int() reads them. */
  function ParseDigits(s: string, value: nat, afterDigit: bool): Option<nat> {
    if s == [] then
      if afterDigit then Some(value) else None
    else if IsDigit(s[0]) then
      ParseDigits(s[1..], value * 10 + DigitValue(s[0]), true)
    else if s[0] == '_' && afterDigit then
      ParseDigits(s[1..], value, false)
    else None
  }

  predicate IsSpace(c: char) { 9 <= c as int <= 13 || 28 <= c as int <= 32 }

  function StripLeft(s: string): string {
    if s != [] && IsSpace(s[0]) then StripLeft(s[1..]) else s
  }

  function StripRight(s: string): string {
    if s != [] && IsSpace(s[|s| - 1]) then StripRight(s[..|s| - 1]) else s
  }

  function Signed(digits: Option<nat>, sign: int): Option<int> {
    match digits
    case None => None
    case Some(n) => var value: int := sign * n; Some(value)
  }

  function ParseInt(text: string): Option<int> {
    var s := StripRight(StripLeft(text));
    if s == [] then None
    else if s[0] == '-' then Signed(ParseDigits(s[1..], 0, false), -1)
    else if s[0] == '+' then Signed(ParseDigits(s[1..], 0, false), 1)
    else Signed(ParseDigits(s, 0, false), 1)
  }

  lemma {:induction false} ParseOneMoreDigit(s: string, c: char, value: nat, afterDigit: bool)
    requires AllDigits(s) && IsDigit(c)
    requires s != [] || afterDigit
    ensures ParseDigits(s, value, afterDigit).Some?
    ensures ParseDigits(s + [c], value, afterDigit) ==
            Some(ParseDigits(s, value, afterDigit).value * 10 + DigitValue(c))
  {
    if s == [] {
      assert s + [c] == [c] && [c][1..] == [];
    } else {
      assert (s + [c])[1..] == s[1..] + [c];
      ParseOneMoreDigit(s[1..], c, value * 10 + DigitValue(s[0]), true);
    }
  }

  lemma {:induction false} ParseNatural(n: nat)
    ensures ParseDigits(Natural(n), 0, false) == Some(n)
  {
    if n < 10 {
      assert Natural(n)[1..] == [];
    } else {
      ParseNatural(n / 10);
      ParseOneMoreDigit(Natural(n / 10), DigitChar(n % 10), 0, false);
    }
  }

  lemma ParseStr(n: nat)
    ensures ParseInt(Str(n)) == Some(n)
  {
    ParseNatural(n);
    var s := Natural(n);
    assert IsDigit(s[0]) && IsDigit(s[|s| - 1]);
    assert StripRight(StripLeft(s)) == s;
  }

  lemma StrHasNo(n: nat, c: char)
    requires !IsDigit(c)
    ensures c !in Str(n)
  {
  }

  // ----- text that is no number

  lemma {:induction false} ParseDigitsGarbage(s: string, value: nat, afterDigit: bool, i: nat)
    requires i < |s| && !IsDigit(s[i]) && s[i] != '_'
    ensures ParseDigits(s, value, afterDigit).None?
  {
    if i > 0 {
      if IsDigit(s[0]) {
        ParseDigitsGarbage(s[1..], value * 10 + DigitValue(s[0]), true, i - 1);
      } else if s[0] == '_' && afterDigit {
        ParseDigitsGarbage(s[1..], value, false, i - 1);
      }
    }
  }

  lemma {:induction false} StripLeftKeeps(s: string, c: char)
    requires c in s && !IsSpace(c)
    ensures c in StripLeft(s)
  {
    if s != [] && IsSpace(s[0]) {
      assert c in s[1..];
      StripLeftKeeps(s[1..], c);
    }
  }

  lemma {:induction false} StripRightKeeps(s: string, c: char)
    requires c in s && !IsSpace(c)
    ensures c in StripRight(s)
  {
    if s != [] && IsSpace(s[|s| - 1]) {
      assert s == s[..|s| - 1] + [s[|s| - 1]];
      StripRightKeeps(s[..|s| - 1], c);
    }
  }

  /** Characters a decimal number may hold. */
  predicate Numeric(c: char) {
    IsDigit(c) || IsSpace(c) || c == '+' || c == '-' || c == '_'
  }

  lemma ParseIntGarbage(text: string, c: char)
    requires c in text && !Numeric(c)
    ensures ParseInt(text).None?
  {
    StripLeftKeeps(text, c);
    StripRightKeeps(StripLeft(text), c);
    var s := StripRight(StripLeft(text));
    var i :| 0 <= i < |s| && s[i] == c;
    if s[0] == '-' || s[0] == '+' {
      assert s[1..][i - 1] == c;
      ParseDigitsGarbage(s[1..], 0, false, i - 1);
    } else {
      ParseDigitsGarbage(s, 0, false, i);
    }
  }

  /** How int() reads a sign and underscores, and what it refuses. */
  lemma NumbersAsRead()
    ensures ParseInt("") == None && ParseInt("-") == None && ParseInt("_1") == None && ParseInt("1_") == None
    ensures ParseInt("-7") == Some(-7) && ParseInt("+7") == Some(7) && ParseInt("1_0") == Some(10)
  {
    assert "-7"[1..] == "7" && "+7"[1..] == "7" && "7"[1..] == "" && "-"[1..] == "";
    assert "1_0"[1..] == "_0" && "_0"[1..] == "0" && "0"[1..] == "";
    assert "1_"[1..] == "_" && "_"[1..] == "";
  }

  /** Blanks around a number do not matter. */
  lemma BlanksDoNotMatter(text: string, c: char)
    requires IsSpace(c)
    ensures ParseInt([c] + text) == ParseInt(text)
  {
    assert ([c] + text)[1..] == text;
  }

  // ----- split and join

  function Split(s: string, sep: char): (parts: seq<string>)
    ensures |parts| > 0
  {
    if s == [] then [[]]
    else
      var rest := Split(s[1..], sep);
      if s[0] == sep then [[]] + rest
      else [[s[0]] + rest[0]] + rest[1..]
  }

  function Join(parts: seq<string>, sep: char): string {
    if parts == [] then []
    else if |parts| == 1 then parts[0]
    else parts[0] + [sep] + Join(parts[1..], sep)
  }

  lemma {:induction false} SplitWhole(p: string, sep: char)
    requires sep !in p
    ensures Split(p, sep) == [p]
  {
    if p != [] {
      SplitWhole(p[1..], sep);
      assert [p[0]] + p[1..] == p;
    }
  }

  lemma {:induction false} SplitFirst(p: string, sep: char, rest: string)
    requires sep !in p
    ensures Split(p + [sep] + rest, sep) == [p] + Split(rest, sep)
  {
    var s := p + [sep] + rest;
    if p == [] {
      assert s[1..] == rest;
    } else {
      SplitFirst(p[1..], sep, rest);
      assert s[1..] == p[1..] + [sep] + rest;
      assert [p[0]] + p[1..] == p;
    }
  }

  lemma {:induction false} SplitJoin(parts: seq<string>, sep: char)
    requires parts != [] && forall i :: 0 <= i < |parts| ==> sep !in parts[i]
    ensures Split(Join(parts, sep), sep) == parts
  {
    if |parts| == 1 {
      SplitWhole(parts[0], sep);
    } else {
      SplitJoin(parts[1..], sep);
      SplitFirst(parts[0], sep, Join(parts[1..], sep));
    }
  }

  /** The text before and after the first separator. */
  function Partition(s: string, sep: char): Option<(string, string)> {
    if s == [] then None
    else if s[0] == sep then Some(([], s[1..]))
    else match Partition(s[1..], sep)
         case None => None
         case Some((head, tail)) => Some(([s[0]] + head, tail))
  }

  lemma {:induction false} PartitionAt(p: string, sep: char, rest: string)
    requires sep !in p
    ensures Partition(p + [sep] + rest, sep) == Some((p, rest))
  {
    var s := p + [sep] + rest;
    if p == [] {
      assert s[1..] == rest;
    } else {
      PartitionAt(p[1..], sep, rest);
      assert s[1..] == p[1..] + [sep] + rest;
      assert [p[0]] + p[1..] == p;
    }
  }

  lemma {:induction false} SplitKeeps(s: string, sep: char, c: char) returns (i: nat)
    requires c in s && c != sep
    ensures i < |Split(s, sep)| && c in Split(s, sep)[i]
  {
    var rest := Split(s[1..], sep);
    if s[0] == c {
      i := 0;
    } else {
      var k := SplitKeeps(s[1..], sep, c);
      i := if s[0] == sep then k + 1 else k;
    }
  }

  lemma {:induction false} PartitionNone(s: string, sep: char)
    requires sep !in s
    ensures Partition(s, sep).None?
  {
    if s != [] {
      PartitionNone(s[1..], sep);
    }
  }

  // ----- bytes

  /** The byte with only bit `k` set. */
  function Mask(k: nat): bv8
    requires k < 8
  {
    if k == 0 then 1 else if k == 1 then 2 else if k == 2 then 4 else if k == 3 then 8
    else if k == 4 then 16 else if k == 5 then 32 else if k == 6 then 64 else 128
  }

  predicate HasBit(b: bv8, k: nat)
    requires k < 8
  {
    b & Mask(k) != 0
  }

  lemma SetBit(b: bv8, k: nat, j: nat)
    requires k < 8 && j < 8
    ensures HasBit(b | Mask(k), j) <==> HasBit(b, j) || j == k
  {
  }

  lemma NoBits(k: nat)
    requires k < 8
    ensures !HasBit(0, k)
  {
  }

  function HexDigit(n: bv8): char {
    if n == 0 then '0' else if n == 1 then '1' else if n == 2 then '2' else if n == 3 then '3'
    else if n == 4 then '4' else if n == 5 then '5' else if n == 6 then '6' else if n == 7 then '7'
    else if n == 8 then '8' else if n == 9 then '9' else if n == 10 then 'a' else if n == 11 then 'b'
    else if n == 12 then 'c' else if n == 13 then 'd' else if n == 14 then 'e' else 'f'
  }

  function HexValue(c: char): Option<bv8> {
    if c == '0' then Some(0) else if c == '1' then Some(1) else if c == '2' then Some(2)
    else if c == '3' then Some(3) else if c == '4' then Some(4) else if c == '5' then Some(5)
    else if c == '6' then Some(6) else if c == '7' then Some(7) else if c == '8' then Some(8)
    else if c == '9' then Some(9) else if c == 'a' || c == 'A' then Some(10)
    else if c == 'b' || c == 'B' then Some(11) else if c == 'c' || c == 'C' then Some(12)
    else if c == 'd' || c == 'D' then Some(13) else if c == 'e' || c == 'E' then Some(14)
    else if c == 'f' || c == 'F' then Some(15) else None
  }

  function Hex(bytes: seq<bv8>): (s: string)
    ensures |s| == 2 * |bytes|
  {
    if bytes == [] then []
    else [HexDigit(bytes[0] >> 4), HexDigit(bytes[0] & 15)] + Hex(bytes[1..])
  }

  /** Pairs of hexadecimal digits; blanks may stand between the pairs. */
  function FromHex(s: string): Option<seq<bv8>> {
    if s == [] then Some([])
    else if 9 <= s[0] as int <= 13 || s[0] == ' ' then FromHex(s[1..])
    else if |s| < 2 then None
    else
      match (HexValue(s[0]), HexValue(s[1]), FromHex(s[2..]))
      case (Some(hi), Some(lo), Some(rest)) => Some([(hi << 4) | lo] + rest)
      case _ => None
  }

  lemma HexPair(b: bv8)
    ensures HexDigit(b >> 4) as int > 32
    ensures HexValue(HexDigit(b >> 4)) == Some(b >> 4)
    ensures HexValue(HexDigit(b & 15)) == Some(b & 15)
    ensures ((b >> 4) << 4) | (b & 15) == b
  {
    assert b >> 4 < 16 && b & 15 < 16;
  }

  lemma FromHexPair(b: bv8, text: string, rest: seq<bv8>)
    requires FromHex(text) == Some(rest)
    ensures FromHex([HexDigit(b >> 4), HexDigit(b & 15)] + text) == Some([b] + rest)
  {
    HexPair(b);
    var s := [HexDigit(b >> 4), HexDigit(b & 15)] + text;
    assert s[2..] == text;
  }

  lemma {:induction false} HexRoundTrip(bytes: seq<bv8>)
    ensures FromHex(Hex(bytes)) == Some(bytes)
  {
    if bytes != [] {
      HexRoundTrip(bytes[1..]);
      FromHexPair(bytes[0], Hex(bytes[1..]), bytes[1..]);
      assert [bytes[0]] + bytes[1..] == bytes;
    }
  }

  /** A character that is neither a hexadecimal digit nor a blank spoils the text. */
  lemma {:induction false} FromHexGarbage(s: string, i: nat)
    requires i < |s| && HexValue(s[i]).None? && !(9 <= s[i] as int <= 13) && s[i] != ' '
    ensures FromHex(s).None?
    decreases |s|
  {
    if 9 <= s[0] as int <= 13 || s[0] == ' ' {
      FromHexGarbage(s[1..], i - 1);
    } else if |s| >= 2 && i >= 2 {
      FromHexGarbage(s[2..], i - 2);
    }
  }

  /** A pair of digits is one byte, high digit first, in either case; blanks may stand between pairs. */
  lemma HexAsRead(rest: string, bytes: seq<bv8>)
    requires FromHex(rest) == Some(bytes)
    ensures FromHex(['a', 'F'] + rest) == Some([0xaf] + bytes) && FromHex(['1', '0'] + rest) == Some([0x10] + bytes)
    ensures FromHex([' '] + rest) == Some(bytes)
    ensures FromHex("7").None?
  {
    assert (['a', 'F'] + rest)[2..] == rest && (['1', '0'] + rest)[2..] == rest && ([' '] + rest)[1..] == rest;
    var ten: bv8, one: bv8 := 10, 1;
    assert (ten << 4) | 15 == 0xaf && (one << 4) | 0 == 0x10;
  }
}
