/** Decoding chat exports: UTF-16 if the bytes begin with one of its byte-order marks, otherwise UTF-8
    with or without a mark; malformed input is replaced, and leading marks are stripped. */
module Decode {
  import opened Wrappers

  type Byte = b: int | 0 <= b < 256

  const MARK: char := '\U{feff}'
  const REPLACEMENT: char := '\U{fffd}'

  const UTF8_MARK: seq<Byte> := [0xEF, 0xBB, 0xBF]
  const LITTLE_MARK: seq<Byte> := [0xFF, 0xFE]
  const BIG_MARK: seq<Byte> := [0xFE, 0xFF]

  // ---------- UTF-8 ----------

  function Utf8Char(c: char): (bytes: seq<Byte>)
    ensures bytes != []
  {
    var x := c as int;
    if x < 0x80 then [x]
    else if x < 0x800 then [0xC0 + x / 64, 0x80 + x % 64]
    else if x < 0x10000 then [0xE0 + x / 4096, 0x80 + x / 64 % 64, 0x80 + x % 64]
    else [0xF0 + x / 262144, 0x80 + x / 4096 % 64, 0x80 + x / 64 % 64, 0x80 + x % 64]
  }

  function Utf8(s: string): seq<Byte> {
    if s == [] then [] else Utf8Char(s[0]) + Utf8(s[1..])
  }

  predicate Continues(b: Byte) {
    0x80 <= b < 0xC0
  }

  /** How many bytes follow a first byte; none for a byte that cannot be first. */
  function Following(b: Byte): Option<nat> {
    if b < 0x80 then Some(0)
    else if 0xC2 <= b < 0xE0 then Some(1)
    else if 0xE0 <= b < 0xF0 then Some(2)
    else if 0xF0 <= b < 0xF5 then Some(3)
    else None
  }

  /** The second byte excludes longer forms than needed, surrogates, and codes above U+10FFFF. */
  predicate SecondOk(first: Byte, second: Byte) {
    && Continues(second)
    && (first == 0xE0 ==> second >= 0xA0)
    && (first == 0xED ==> second < 0xA0)
    && (first == 0xF0 ==> second >= 0x90)
    && (first == 0xF4 ==> second < 0x90)
  }

  function Two(a: int, b: int): int {
    (a - 0xC0) * 64 + (b - 0x80)
  }

  function Three(a: int, b: int, c: int): int {
    (a - 0xE0) * 4096 + (b - 0x80) * 64 + (c - 0x80)
  }

  function Four(a: int, b: int, c: int, d: int): int {
    (a - 0xF0) * 262144 + (b - 0x80) * 4096 + (c - 0x80) * 64 + (d - 0x80)
  }

  /** The next character and how many bytes it takes: a malformed prefix is replaced as a whole. */
  function NextUtf8(b: seq<Byte>): (r: (char, nat))
    requires b != []
    ensures 1 <= r.1 <= |b|
  {
    var n := Following(b[0]);
    if n == None then (REPLACEMENT, 1)
    else if n == Some(0) then (b[0] as char, 1)
    else if |b| < 2 || !SecondOk(b[0], b[1]) then (REPLACEMENT, 1)
    else if n == Some(1) then (Two(b[0], b[1]) as char, 2)
    else if |b| < 3 || !Continues(b[2]) then (REPLACEMENT, 2)
    else if n == Some(2) then (Three(b[0], b[1], b[2]) as char, 3)
    else if |b| < 4 || !Continues(b[3]) then (REPLACEMENT, 3)
    else (Four(b[0], b[1], b[2], b[3]) as char, 4)
  }

  function DecodeUtf8(b: seq<Byte>): string
    decreases |b|
  {
    if b == [] then [] else var (c, n) := NextUtf8(b); [c] + DecodeUtf8(b[n..])
  }

  lemma SplitTwo(x: int)
    requires 0x80 <= x < 0x800
    ensures var (a, b) := (0xC0 + x / 64, 0x80 + x % 64);
            0xC2 <= a < 0xE0 && 0x80 <= b < 0xC0 && Two(a, b) == x
  {
  }

  lemma SplitThree(x: int)
    requires 0x800 <= x < 0x10000 && !(0xD800 <= x < 0xE000)
    ensures var (a, b, c) := (0xE0 + x / 4096, 0x80 + x / 64 % 64, 0x80 + x % 64);
            && 0xE0 <= a < 0xF0 && 0x80 <= c < 0xC0 && 0x80 <= b < 0xC0 && SecondOk(a, b)
            && Three(a, b, c) == x
  {
    assert x / 4096 == x / 64 / 64;
  }

  lemma SplitFour(x: int)
    requires 0x10000 <= x < 0x110000
    ensures var (a, b, c, d) := (0xF0 + x / 262144, 0x80 + x / 4096 % 64, 0x80 + x / 64 % 64, 0x80 + x % 64);
            && 0xF0 <= a < 0xF5 && 0x80 <= b < 0xC0 && 0x80 <= c < 0xC0 && 0x80 <= d < 0xC0 && SecondOk(a, b)
            && Four(a, b, c, d) == x
  {
    assert x / 4096 == x / 64 / 64 && x / 262144 == x / 4096 / 64;
  }

  /** The bytes of a character followed by anything read as that character. */
  lemma NextUtf8OfChar(c: char, rest: seq<Byte>)
    ensures NextUtf8(Utf8Char(c) + rest) == (c, |Utf8Char(c)|)
  {
    var x := c as int;
    if 0x80 <= x < 0x800 {
      SplitTwo(x);
    } else if 0x800 <= x < 0x10000 {
      SplitThree(x);
    } else if x >= 0x10000 {
      SplitFour(x);
    }
  }

  lemma {:induction false} Utf8RoundTrip(s: string)
    ensures DecodeUtf8(Utf8(s)) == s
  {
    if s != [] {
      NextUtf8OfChar(s[0], Utf8(s[1..]));
      Utf8RoundTrip(s[1..]);
      assert Utf8(s)[|Utf8Char(s[0])|..] == Utf8(s[1..]);
    }
  }

  /** Well-formed UTF-8 has no byte that a UTF-16 mark consists of. */
  lemma {:induction false} Utf8HasNoMarkByte(s: string)
    ensures forall b :: b in Utf8(s) ==> b < 0xF8
  {
    if s != [] { Utf8HasNoMarkByte(s[1..]); }
  }

  // ---------- UTF-16 ----------

  datatype Endian = Little | Big

  function Unit(x: int, e: Endian): seq<Byte>
    requires 0 <= x < 0x10000
  {
    if e == Little then [x % 256, x / 256] else [x / 256, x % 256]
  }

  function Utf16Char(c: char, e: Endian): (bytes: seq<Byte>)
    ensures |bytes| == 2 || |bytes| == 4
  {
    var x := c as int;
    if x < 0x10000 then Unit(x, e)
    else Unit(0xD800 + (x - 0x10000) / 1024, e) + Unit(0xDC00 + (x - 0x10000) % 1024, e)
  }

  function Utf16(s: string, e: Endian): seq<Byte> {
    if s == [] then [] else Utf16Char(s[0], e) + Utf16(s[1..], e)
  }

  function PairOf(low: int, high: int): int {
    low + 256 * high
  }

  function UnitAt(b: seq<Byte>, i: nat, e: Endian): (x: int)
    requires i + 1 < |b|
    ensures 0 <= x < 0x10000
  {
    if e == Little then PairOf(b[i], b[i + 1]) else PairOf(b[i + 1], b[i])
  }

  predicate IsHigh(x: int) {
    0xD800 <= x < 0xDC00
  }

  predicate IsLow(x: int) {
    0xDC00 <= x < 0xE000
  }

  /** The next character and how many bytes it takes: an odd last byte, a high surrogate at the end
      with whatever follows it, and a lone surrogate are replaced. */
  function NextUtf16(b: seq<Byte>, e: Endian): (r: (char, nat))
    requires b != []
    ensures 1 <= r.1 <= |b|
  {
    if |b| < 2 then (REPLACEMENT, |b|)
    else
      var x := UnitAt(b, 0, e);
      if IsLow(x) then (REPLACEMENT, 2)
      else if !IsHigh(x) then (x as char, 2)
      else if |b| < 4 then (REPLACEMENT, |b|)
      else
        var y := UnitAt(b, 2, e);
        if IsLow(y) then ((0x10000 + (x - 0xD800) * 1024 + (y - 0xDC00)) as char, 4) else (REPLACEMENT, 2)
  }

  function DecodeUtf16(b: seq<Byte>, e: Endian): string
    decreases |b|
  {
    if b == [] then [] else var (c, n) := NextUtf16(b, e); [c] + DecodeUtf16(b[n..], e)
  }

  lemma NextUtf16OfChar(c: char, rest: seq<Byte>, e: Endian)
    ensures NextUtf16(Utf16Char(c, e) + rest, e) == (c, |Utf16Char(c, e)|)
  {
  }

  lemma {:induction false} Utf16RoundTrip(s: string, e: Endian)
    ensures DecodeUtf16(Utf16(s, e), e) == s
  {
    if s != [] {
      NextUtf16OfChar(s[0], Utf16(s[1..], e), e);
      Utf16RoundTrip(s[1..], e);
      assert Utf16(s, e)[|Utf16Char(s[0], e)|..] == Utf16(s[1..], e);
    }
  }

  // ---------- Malformed input ----------

  lemma BytesOfTwo(a: Byte, b: Byte)
    requires 0xC2 <= a < 0xE0 && Continues(b)
    ensures 0x80 <= Two(a, b) < 0x800 && Utf8Char(Two(a, b) as char) == [a, b]
  {
  }

  lemma BytesOfThree(a: Byte, b: Byte, c: Byte)
    requires 0xE0 <= a < 0xF0 && SecondOk(a, b) && Continues(c)
    ensures var x := Three(a, b, c);
            0x800 <= x < 0x10000 && !(0xD800 <= x < 0xE000) && Utf8Char(x as char) == [a, b, c]
  {
    var x := Three(a, b, c);
    assert x / 64 == (a - 0xE0) * 64 + (b - 0x80) && x % 64 == c - 0x80;
    assert x / 4096 == x / 64 / 64;
  }

  lemma BytesOfFour(a: Byte, b: Byte, c: Byte, d: Byte)
    requires 0xF0 <= a < 0xF5 && SecondOk(a, b) && Continues(c) && Continues(d)
    ensures var x := Four(a, b, c, d);
            0x10000 <= x < 0x110000 && Utf8Char(x as char) == [a, b, c, d]
  {
    var x := Four(a, b, c, d);
    assert x / 64 == (a - 0xF0) * 4096 + (b - 0x80) * 64 + (c - 0x80) && x % 64 == d - 0x80;
    assert x / 64 / 64 == (a - 0xF0) * 64 + (b - 0x80);
    assert x / 4096 == x / 64 / 64 && x / 262144 == x / 4096 / 64;
  }

  /** A character that is read, and is not the replacement, is encoded by the bytes read. */
  lemma NextUtf8Encoded(b: seq<Byte>)
    requires b != [] && NextUtf8(b).0 != REPLACEMENT
    ensures Utf8Char(NextUtf8(b).0) == b[..NextUtf8(b).1]
  {
    var n := Following(b[0]);
    if n == Some(1) {
      BytesOfTwo(b[0], b[1]);
    } else if n == Some(2) {
      BytesOfThree(b[0], b[1], b[2]);
    } else if n == Some(3) {
      BytesOfFour(b[0], b[1], b[2], b[3]);
    }
  }

  /** Some character's encoding begins with these bytes. */
  ghost predicate Begins(b: seq<Byte>) {
    exists c: char :: b <= Utf8Char(c)
  }

  lemma NoEncodingBegins(b: seq<Byte>, n: nat, c: char)
    requires n < |b| && NextUtf8(b) == (REPLACEMENT, n) && b[..n] != Utf8Char(REPLACEMENT)
    ensures !(b[..n + 1] <= Utf8Char(c))
  {
    var w := Utf8Char(c);
    if b[..n + 1] <= w {
      NextUtf8OfChar(c, []);
      assert w + [] == w && |w| > n;
      assert forall i :: 0 <= i <= n ==> w[i] == b[..n + 1][i] == b[i];
      hide Utf8Char;
      assert false;
    }
  }

  /** What is replaced is a maximal subpart, as in section 3.9 of the Unicode Standard: one byte, or more that
      begin an encoding, and never so many that one more byte would still begin one. */
  lemma MaximalSubpart(b: seq<Byte>)
    requires b != [] && NextUtf8(b).0 == REPLACEMENT
    ensures var n := NextUtf8(b).1;
            || b[..n] == Utf8Char(REPLACEMENT)
            || ((n == 1 || Begins(b[..n])) && (n == |b| || !Begins(b[..n + 1])))
  {
    var n := NextUtf8(b).1;
    if b[..n] != Utf8Char(REPLACEMENT) {
      if n == 2 && Following(b[0]) == Some(2) {
        BytesOfThree(b[0], b[1], 0x80);
        assert b[..n] <= Utf8Char(Three(b[0], b[1], 0x80) as char);
      } else if n == 2 {
        BytesOfFour(b[0], b[1], 0x80, 0x80);
        assert b[..n] <= Utf8Char(Four(b[0], b[1], 0x80, 0x80) as char);
      } else if n == 3 && Following(b[0]) == Some(3) {
        BytesOfFour(b[0], b[1], b[2], 0x80);
        assert b[..n] <= Utf8Char(Four(b[0], b[1], b[2], 0x80) as char);
      }
      if n < |b| {
        forall c: char ensures !(b[..n + 1] <= Utf8Char(c)) { NoEncodingBegins(b, n, c); }
      }
    }
  }

  lemma Utf8OfCons(c: char, s: string)
    ensures Utf8([c] + s) == Utf8Char(c) + Utf8(s)
  {
    assert ([c] + s)[1..] == s;
  }

  lemma DecodeUtf8Step(b: seq<Byte>)
    requires b != []
    ensures var (c, n) := NextUtf8(b); DecodeUtf8(b) == [c] + DecodeUtf8(b[n..])
  {
    hide NextUtf8;
  }

  /** So bytes that are not the encoding of the text read from them show in it by a replacement. */
  lemma {:induction false} MalformedShows(b: seq<Byte>)
    ensures REPLACEMENT !in DecodeUtf8(b) ==> Utf8(DecodeUtf8(b)) == b
    decreases |b|
  {
    hide NextUtf8, Utf8Char;
    if b != [] {
      hide DecodeUtf8, Utf8;
      var (c, n) := NextUtf8(b);
      var rest := DecodeUtf8(b[n..]);
      DecodeUtf8Step(b);
      MalformedShows(b[n..]);
      Utf8OfCons(c, rest);
      if REPLACEMENT !in [c] + rest {
        assert c == ([c] + rest)[0];
        NextUtf8Encoded(b);
        assert b == b[..n] + b[n..];
      }
    }
  }

  lemma UnitOfBytes(b: seq<Byte>, i: nat, e: Endian)
    requires i + 1 < |b|
    ensures Unit(UnitAt(b, i, e), e) == [b[i], b[i + 1]]
  {
  }

  lemma PairOfUnits(x: int, y: int, e: Endian)
    requires IsHigh(x) && IsLow(y)
    ensures Utf16Char((0x10000 + (x - 0xD800) * 1024 + (y - 0xDC00)) as char, e) == Unit(x, e) + Unit(y, e)
  {
    var z := (x - 0xD800) * 1024 + (y - 0xDC00);
    assert z / 1024 == x - 0xD800 && z % 1024 == y - 0xDC00;
    hide Unit;
  }

  lemma NextUtf16Encoded(b: seq<Byte>, e: Endian)
    requires b != [] && NextUtf16(b, e).0 != REPLACEMENT
    ensures Utf16Char(NextUtf16(b, e).0, e) == b[..NextUtf16(b, e).1]
  {
    hide Unit, UnitAt;
    UnitOfBytes(b, 0, e);
    var x := UnitAt(b, 0, e);
    if IsHigh(x) {
      UnitOfBytes(b, 2, e);
      PairOfUnits(x, UnitAt(b, 2, e), e);
    }
  }

  lemma Utf16OfCons(c: char, s: string, e: Endian)
    ensures Utf16([c] + s, e) == Utf16Char(c, e) + Utf16(s, e)
  {
    assert ([c] + s)[1..] == s;
  }

  lemma DecodeUtf16Step(b: seq<Byte>, e: Endian)
    requires b != []
    ensures var (c, n) := NextUtf16(b, e); DecodeUtf16(b, e) == [c] + DecodeUtf16(b[n..], e)
  {
    hide NextUtf16;
  }

  lemma {:induction false} Malformed16Shows(b: seq<Byte>, e: Endian)
    ensures REPLACEMENT !in DecodeUtf16(b, e) ==> Utf16(DecodeUtf16(b, e), e) == b
    decreases |b|
  {
    hide NextUtf16, Utf16Char;
    if b != [] {
      hide DecodeUtf16, Utf16;
      var (c, n) := NextUtf16(b, e);
      var rest := DecodeUtf16(b[n..], e);
      DecodeUtf16Step(b, e);
      Malformed16Shows(b[n..], e);
      Utf16OfCons(c, rest, e);
      if REPLACEMENT !in [c] + rest {
        assert c == ([c] + rest)[0];
        NextUtf16Encoded(b, e);
        assert b == b[..n] + b[n..];
      }
    }
  }

  /** Known encodings, as in section 3 of RFC 3629 and section 2 of RFC 2781. */
  lemma KnownEncodings()
    ensures Utf8("A\U{00e9}\U{20ac}\U{1f600}") ==
            [0x41, 0xC3, 0xA9, 0xE2, 0x82, 0xAC, 0xF0, 0x9F, 0x98, 0x80]
    ensures Utf16Char('\U{20ac}', Little) == [0xAC, 0x20] && Utf16Char('\U{20ac}', Big) == [0x20, 0xAC]
    ensures Utf16Char('\U{1f600}', Little) == [0x3D, 0xD8, 0x00, 0xDE]
    ensures Utf16Char('\U{1f600}', Big) == [0xD8, 0x3D, 0xDE, 0x00]
    ensures Utf8([MARK]) == UTF8_MARK == [0xEF, 0xBB, 0xBF]
    ensures Utf16([MARK], Little) == LITTLE_MARK == [0xFF, 0xFE] && Utf16([MARK], Big) == BIG_MARK == [0xFE, 0xFF]
  {
  }

  // ---------- decode_text ----------

  /** `lstrip` of the mark. */
  function StripMarks(s: string): string {
    if s != [] && s[0] == MARK then StripMarks(s[1..]) else s
  }

  function DecodeText(content: seq<Byte>): string {
    StripMarks(
      if LITTLE_MARK <= content then DecodeUtf16(content[2..], Little)
      else if BIG_MARK <= content then DecodeUtf16(content[2..], Big)
      else if UTF8_MARK <= content then DecodeUtf8(content[3..])
      else DecodeUtf8(content))
  }

  lemma {:induction false} StripMarksIs(s: string)
    ensures StripMarks(s) == s <==> s == [] || s[0] != MARK
    ensures |StripMarks(s)| <= |s|
  {
    if s != [] && s[0] == MARK { StripMarksIs(s[1..]); }
  }

  /** The mark in front of a text is dropped together with the others. */
  lemma MarkIsDropped(s: string)
    ensures Utf8([MARK] + s) == UTF8_MARK + Utf8(s)
    ensures StripMarks([MARK] + s) == StripMarks(s)
  {
    assert ([MARK] + s)[1..] == s;
    assert Utf8Char(MARK) == UTF8_MARK;
  }

  lemma DecodeLittle(s: string)
    ensures DecodeText(LITTLE_MARK + Utf16(s, Little)) == StripMarks(s)
  {
    var content := LITTLE_MARK + Utf16(s, Little);
    assert content[2..] == Utf16(s, Little);
    Utf16RoundTrip(s, Little);
  }

  lemma DecodeBig(s: string)
    ensures DecodeText(BIG_MARK + Utf16(s, Big)) == StripMarks(s)
  {
    var content := BIG_MARK + Utf16(s, Big);
    assert content[0] == 0xFE && content[2..] == Utf16(s, Big);
    Utf16RoundTrip(s, Big);
  }

  /** From each of the four encodings of a text, decoding gives the text without leading marks. */
  lemma DecodeEachEncoding(s: string)
    ensures DecodeText(Utf8(s)) == StripMarks(s)
    ensures DecodeText(UTF8_MARK + Utf8(s)) == StripMarks(s)
    ensures DecodeText(LITTLE_MARK + Utf16(s, Little)) == StripMarks(s)
    ensures DecodeText(BIG_MARK + Utf16(s, Big)) == StripMarks(s)
  {
    DecodePlain(s);
    MarkIsDropped(s);
    DecodePlain([MARK] + s);
    DecodeLittle(s);
    DecodeBig(s);
  }

  lemma DecodePlain(s: string)
    ensures DecodeText(Utf8(s)) == StripMarks(s)
  {
    var content := Utf8(s);
    Utf8HasNoMarkByte(s);
    Utf8RoundTrip(s);
    assert content != [] ==> content[0] < 0xF8;
    if UTF8_MARK <= content {
      MarkComesFirst(s);
    }
  }

  /** UTF-8 that begins with the mark's bytes begins with the mark. */
  lemma MarkComesFirst(s: string)
    requires UTF8_MARK <= Utf8(s)
    ensures s != [] && s[0] == MARK && DecodeUtf8(Utf8(s)[3..]) == s[1..]
  {
    NextUtf8OfChar(s[0], Utf8(s[1..]));
    assert NextUtf8(Utf8(s)) == (MARK, 3);
    assert Utf8(s)[3..] == Utf8(s[1..]);
    Utf8RoundTrip(s[1..]);
  }

  /** So a text comes back from all its encodings exactly if it does not itself begin with a mark. */
  lemma DecodeRoundTripIff(s: string)
    ensures DecodeText(Utf8(s)) == s && DecodeText(UTF8_MARK + Utf8(s)) == s
            && DecodeText(LITTLE_MARK + Utf16(s, Little)) == s && DecodeText(BIG_MARK + Utf16(s, Big)) == s
            <==> s == [] || s[0] != MARK
  {
    DecodeEachEncoding(s);
    StripMarksIs(s);
  }
}
