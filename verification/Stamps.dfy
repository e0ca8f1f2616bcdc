/** The four timestamp formats of a chat export, and reading and printing their stamps. */
module Stamps {
  import opened Wrappers
  import opened Patterns

  // ---------- The formats ----------

  const SEPARATORS := "./-"
  const SPACES := " \U{00a0}\U{202f}"

  const IOS_END := OneOf("]", OneOf(" ", Ahead(End)))
  const ANDROID_END := OneOf(" ", OneOf("-", OneOf(" ", Ahead(End))))

  /** An AM/PM marker, after a space or not. */
  const MARKER := Maybe(OneOf(SPACES, End), OneOf("AaPp", OneOf("Mm", End)))

  const CLOCK := OneOf(",", OneOf(" ", Digits(1, 2, false, OneOf(":", Digits(2, 2, false, End)))))

  const DATE_AND_TIME :=
    Digits(1, 2, true, OneOf(SEPARATORS, Digits(1, 2, true, OneOf(SEPARATORS, Digits(2, 4, true, CLOCK)))))

  const SECONDS := OneOf(":", Digits(2, 2, false, End))

  const ISO_DATE_AND_TIME :=
    Digits(4, 4, true, OneOf("-", Digits(2, 2, true, OneOf("-", Digits(2, 2, true, CLOCK)))))

  const IOS_ISO := OneOf("[", Then(ISO_DATE_AND_TIME, Then(SECONDS, IOS_END)))
  const IOS := OneOf("[", Then(DATE_AND_TIME, Maybe(SECONDS, Maybe(MARKER, IOS_END))))
  const ANDROID_12 := Then(DATE_AND_TIME, Then(MARKER, ANDROID_END))
  const ANDROID_24 := Then(DATE_AND_TIME, ANDROID_END)

  /** The formats in the order in which they are tried. */
  function Format(i: nat): Pattern
    requires i < 4
  {
    if i == 0 then IOS_ISO else if i == 1 then IOS else if i == 2 then ANDROID_12 else ANDROID_24
  }

  /** A stamp's date components as written: month and day already for ISO, first and second
      component otherwise. */
  datatype LineDate = LineDate(a: nat, b: nat, year: nat, iso: bool)

  function Digit(c: char): nat
    requires IsDigit(c)
  {
    c as int - '0' as int
  }

  function ToInt(s: string): nat
    requires AllDigits(s)
  {
    if s == [] then 0 else ToInt(s[..|s| - 1]) * 10 + Digit(s[|s| - 1])
  }

  /** The most significant digit comes first. */
  lemma DecimalNotation(a: char, b: char, c: char, d: char)
    requires a in "0123456789" && b in "0123456789" && c in "0123456789" && d in "0123456789"
    ensures ToInt([a]) == a as int - '0' as int
    ensures ToInt([a, b]) == 10 * ToInt([a]) + ToInt([b])
    ensures ToInt([a, b, c]) == 100 * ToInt([a]) + 10 * ToInt([b]) + ToInt([c])
    ensures ToInt([a, b, c, d]) == 1000 * ToInt([a]) + 100 * ToInt([b]) + 10 * ToInt([c]) + ToInt([d])
  {
    assert [a, b, c, d][..3] == [a, b, c] && [a, b, c][..2] == [a, b] && [a, b][..1] == [a];
  }

  function LineDateOf(i: nat, captures: Captures): Option<LineDate> {
    if |captures| == 3 && AllDigits(captures[0]) && AllDigits(captures[1]) && AllDigits(captures[2]) then
      if i == 0 then Some(LineDate(ToInt(captures[1]), ToInt(captures[2]), ToInt(captures[0]), true))
      else Some(LineDate(ToInt(captures[0]), ToInt(captures[1]), ToInt(captures[2]), false))
    else None
  }

  /** `_match_line`: the first format that matches, by backtracking. */
  function MatchFrom(i: nat, line: string): Option<LineDate>
    requires i <= 4
    decreases 4 - i
  {
    if i == 4 then None
    else
      var captures := Match(Format(i), line);
      if captures.Some? then LineDateOf(i, captures.value) else MatchFrom(i + 1, line)
  }

  function MatchLine(line: string): Option<LineDate> {
    MatchFrom(0, line)
  }

  // ---------- Prefixes ----------

  /** A pattern of digits and single characters only. */
  predicate Plain(p: Pattern) {
    match p
    case End => true
    case Digits(_, _, _, next) => Plain(next)
    case OneOf(_, next) => Plain(next)
    case _ => false
  }

  function With(first: Captures, rest: Option<Captures>): Option<Captures> {
    if rest.Some? then Some(first + rest.value) else None
  }

  /** Reading a plain prefix: what it captures and the line after it. */
  function Consume(p: Pattern, s: string): Option<(Captures, string)>
    requires Plain(p)
  {
    match p
    case End => Some(([], s))
    case Digits(lo, hi, capture, next) =>
      var n := DigitRun(s);
      if lo <= n <= hi && Consume(next, s[n..]).Some? then
        var (captures, rest) := Consume(next, s[n..]).value;
        Some((if capture then [s[..n]] + captures else captures, rest))
      else None
    case OneOf(chars, next) => if s != [] && s[0] in chars then Consume(next, s[1..]) else None
  }

  lemma {:induction false} ReadsThen(p: Pattern, q: Pattern, s: string)
    requires Plain(p)
    ensures Reads(Then(p, q), s) ==
            if Consume(p, s).Some? then With(Consume(p, s).value.0, Reads(q, Consume(p, s).value.1)) else None
  {
    match p
    case End => assert Reads(q, s).Some? ==> [] + Reads(q, s).value == Reads(q, s).value;
    case Digits(lo, hi, capture, next) =>
      var n := DigitRun(s);
      ReadsThen(next, q, s[n..]);
      if lo <= n <= hi && Consume(next, s[n..]).Some? && Reads(q, Consume(next, s[n..]).value.1).Some? {
        var (captures, rest) := Consume(next, s[n..]).value;
        assert [s[..n]] + (captures + Reads(q, rest).value) == [s[..n]] + captures + Reads(q, rest).value;
      }
    case OneOf(chars, next) => if s != [] { ReadsThen(next, q, s[1..]); }
  }

  // ---------- Determinism ----------

  ghost predicate NoDigitStarts(p: Pattern) {
    Needs(p) && forall c :: IsDigit(c) ==> !Starts(p, c)
  }

  /** A plain prefix in which no digit run is followed by a digit keeps determinism. */
  predicate Separated(p: Pattern) {
    match p
    case End => true
    case Digits(lo, _, _, next) =>
      lo > 0 && Separated(next) && (next.End? || (next.OneOf? && forall c :: c in next.chars ==> !IsDigit(c)))
    case OneOf(_, next) => Separated(next)
    case _ => false
  }

  lemma {:induction false} SeparatedThen(p: Pattern, q: Pattern)
    requires Separated(p) && Deterministic(q) && NoDigitStarts(q)
    ensures Deterministic(Then(p, q))
  {
    if p.Digits? || p.OneOf? { SeparatedThen(p.next, q); }
  }

  lemma EndsDeterministic()
    ensures Deterministic(IOS_END) && NoDigitStarts(IOS_END)
    ensures Deterministic(ANDROID_END) && NoDigitStarts(ANDROID_END)
  {
    assert Deterministic(Ahead(End));
    assert Deterministic(OneOf(" ", Ahead(End)));
    assert Deterministic(OneOf("-", OneOf(" ", Ahead(End))));
  }

  lemma MarkerDeterministic(q: Pattern)
    requires Deterministic(q)
    ensures Deterministic(Then(MARKER, q)) && NoDigitStarts(Then(MARKER, q))
  {
    var letters := OneOf("AaPp", OneOf("Mm", q));
    assert Then(OneOf("Mm", End), q) == OneOf("Mm", q);
    assert Then(OneOf("AaPp", OneOf("Mm", End)), q) == letters;
    assert Then(MARKER, q) == Maybe(OneOf(SPACES, End), letters);
    assert Deterministic(OneOf("Mm", q));
    assert Deterministic(letters);
    assert Then(OneOf(SPACES, End), letters) == OneOf(SPACES, letters);
    assert Deterministic(OneOf(SPACES, letters));
  }

  lemma PrefixesSeparated()
    ensures Separated(CLOCK) && Separated(SECONDS) && Separated(DATE_AND_TIME) && Separated(ISO_DATE_AND_TIME)
    ensures Plain(CLOCK) && Plain(SECONDS) && Plain(DATE_AND_TIME) && Plain(ISO_DATE_AND_TIME)
  {
    var minutes := Digits(2, 2, false, End);
    assert Separated(OneOf(":", minutes)) && Plain(OneOf(":", minutes));
    var hours := Digits(1, 2, false, OneOf(":", minutes));
    assert Separated(hours) && Plain(hours);
    assert Separated(OneOf(" ", hours)) && Plain(OneOf(" ", hours));
    assert Separated(CLOCK) && Plain(CLOCK);
    var year := Digits(2, 4, true, CLOCK);
    assert Separated(year) && Plain(year);
    var second := Digits(1, 2, true, OneOf(SEPARATORS, year));
    assert Separated(OneOf(SEPARATORS, year)) && Plain(OneOf(SEPARATORS, year));
    assert Separated(second) && Plain(second);
    assert Separated(OneOf(SEPARATORS, second)) && Plain(OneOf(SEPARATORS, second));
    var day := Digits(2, 2, true, CLOCK);
    assert Separated(day) && Plain(day);
    var month := Digits(2, 2, true, OneOf("-", day));
    assert Separated(OneOf("-", day)) && Plain(OneOf("-", day));
    assert Separated(month) && Plain(month);
    assert Separated(OneOf("-", month)) && Plain(OneOf("-", month));
  }

  lemma MarkerStarts(c: char)
    requires Starts(MARKER, c)
    ensures c == ' ' || c == '\U{00a0}' || c == '\U{202f}' || c in "AaPp"
  {
  }

  lemma MarkerOrEndDeterministic()
    ensures Deterministic(Maybe(MARKER, IOS_END)) && NoDigitStarts(Maybe(MARKER, IOS_END))
    ensures !Starts(Maybe(MARKER, IOS_END), ':')
  {
    EndsDeterministic();
    MarkerDeterministic(IOS_END);
    forall c | Starts(MARKER, c) ensures c != ']' && c != ':' && !IsDigit(c) { MarkerStarts(c); }
  }

  lemma SecondsOrMarkerDeterministic()
    ensures Deterministic(Maybe(SECONDS, Maybe(MARKER, IOS_END)))
    ensures NoDigitStarts(Maybe(SECONDS, Maybe(MARKER, IOS_END)))
  {
    MarkerOrEndDeterministic();
    PrefixesSeparated();
    SeparatedThen(SECONDS, Maybe(MARKER, IOS_END));
    assert forall c :: Starts(SECONDS, c) ==> c == ':';
  }

  /** All four formats are deterministic. */
  lemma FormatsDeterministic(i: nat)
    requires i < 4
    ensures Deterministic(Format(i))
  {
    PrefixesSeparated();
    EndsDeterministic();
    if i == 0 {
      SeparatedThen(SECONDS, IOS_END);
      assert NoDigitStarts(Then(SECONDS, IOS_END));
      SeparatedThen(ISO_DATE_AND_TIME, Then(SECONDS, IOS_END));
    } else if i == 1 {
      SecondsOrMarkerDeterministic();
      SeparatedThen(DATE_AND_TIME, Maybe(SECONDS, Maybe(MARKER, IOS_END)));
    } else if i == 2 {
      MarkerDeterministic(ANDROID_END);
      SeparatedThen(DATE_AND_TIME, Then(MARKER, ANDROID_END));
    } else {
      SeparatedThen(DATE_AND_TIME, ANDROID_END);
    }
  }

  // ---------- At most one format matches ----------

  /** A marker, or a space and a marker, is no end of a 24-hour stamp. */
  lemma MarkerIsNoEnd(rest: string)
    requires Reads(Then(MARKER, ANDROID_END), rest).Some?
    ensures Reads(ANDROID_END, rest) == None
  {
    var letters := OneOf("AaPp", OneOf("Mm", ANDROID_END));
    assert Then(OneOf("Mm", End), ANDROID_END) == OneOf("Mm", ANDROID_END);
    assert Then(OneOf("AaPp", OneOf("Mm", End)), ANDROID_END) == letters;
    assert Then(MARKER, ANDROID_END) == Maybe(OneOf(SPACES, End), letters);
    assert Then(OneOf(SPACES, End), letters) == OneOf(SPACES, letters);
    if rest != [] && rest[0] in SPACES {
      assert Reads(letters, rest[1..]).Some?;
    } else {
      assert Reads(letters, rest).Some?;
    }
  }

  lemma AndroidFormatsApart(s: string)
    requires Reads(ANDROID_12, s).Some?
    ensures Reads(ANDROID_24, s) == None
  {
    PrefixesSeparated();
    ReadsThen(DATE_AND_TIME, Then(MARKER, ANDROID_END), s);
    ReadsThen(DATE_AND_TIME, ANDROID_END, s);
    MarkerIsNoEnd(Consume(DATE_AND_TIME, s).value.1);
  }

  lemma BracketFormatsApart(s: string)
    requires Reads(IOS_ISO, s).Some?
    ensures Reads(IOS, s) == None
  {
    PrefixesSeparated();
    ReadsThen(ISO_DATE_AND_TIME, Then(SECONDS, IOS_END), s[1..]);
    ReadsThen(DATE_AND_TIME, Maybe(SECONDS, Maybe(MARKER, IOS_END)), s[1..]);
    assert DigitRun(s[1..]) == 4;
  }

  lemma BracketMeansIos(s: string, i: nat)
    requires i < 4 && Reads(Format(i), s).Some?
    ensures s != [] && (s[0] == '[' <==> i < 2)
  {
    PrefixesSeparated();
    if i >= 2 {
      ReadsThen(DATE_AND_TIME, if i == 2 then Then(MARKER, ANDROID_END) else ANDROID_END, s);
      assert DigitRun(s) >= 1;
      assert s[..DigitRun(s)][0] == s[0];
    }
  }

  /** For every line at most one format matches, in at most one way: whatever two ways of matching
      any of the formats there are, they are the same format and capture the same texts. So trying the
      formats in another order would change nothing. */
  lemma StampsUnambiguous(s: string, i: nat, captures: Captures, j: nat, captures': Captures)
    requires i < 4 && j < 4
    requires Derives(Format(i), s, captures) && Derives(Format(j), s, captures')
    ensures i == j && captures == captures'
  {
    FormatsDeterministic(i);
    FormatsDeterministic(j);
    OneWay(Format(i), s, captures);
    OneWay(Format(j), s, captures');
    BracketMeansIos(s, i);
    BracketMeansIos(s, j);
    if Reads(IOS_ISO, s).Some? { BracketFormatsApart(s); }
    if Reads(ANDROID_12, s).Some? { AndroidFormatsApart(s); }
  }

  /** The stamp of a line is the one way to match it, whichever format that is. */
  lemma MatchLineIs(s: string, i: nat, captures: Captures)
    requires i < 4 && Derives(Format(i), s, captures)
    ensures MatchLine(s) == LineDateOf(i, captures)
  {
    MatchFromIs(s, 0, i, captures);
  }

  lemma {:induction false} MatchFromIs(s: string, k: nat, i: nat, captures: Captures)
    requires k <= i < 4 && Derives(Format(i), s, captures)
    ensures MatchFrom(k, s) == LineDateOf(i, captures)
    decreases 4 - k
  {
    if Match(Format(k), s).Some? {
      MatchSound(Format(k), s);
      StampsUnambiguous(s, i, captures, k, Match(Format(k), s).value);
    } else {
      if k == i { MatchComplete(Format(i), s, captures); assert false; }
      MatchFromIs(s, k + 1, i, captures);
    }
  }
}
