/** The fragment of regular expressions that the timestamp formats use, matched from the start of a
    line by backtracking, and when such a match is unambiguous. */
module Patterns {
  import opened Wrappers

  predicate IsDigit(c: char) {
    '0' <= c <= '9'
  }

  predicate AllDigits(s: string) {
    forall i :: 0 <= i < |s| ==> IsDigit(s[i])
  }

  /** The characters that `\s` matches. */
  predicate IsSpace(c: char) {
    || '\U{0009}' <= c <= '\U{000d}'
    || '\U{001c}' <= c <= '\U{0020}'
    || c == '\U{0085}' || c == '\U{00a0}' || c == '\U{1680}'
    || '\U{2000}' <= c <= '\U{200a}'
    || c == '\U{2028}' || c == '\U{2029}' || c == '\U{202f}' || c == '\U{205f}' || c == '\U{3000}'
  }

  /** The digits, and the characters that count as space. */
  lemma CharactersAre(c: char)
    ensures IsDigit(c) <==> c in "0123456789"
    ensures IsSpace(c) <==>
            || c in "\t\n\U{000b}\U{000c}\r\U{001c}\U{001d}\U{001e}\U{001f} \U{0085}\U{00a0}\U{1680}"
            || c in "\U{2000}\U{2001}\U{2002}\U{2003}\U{2004}\U{2005}\U{2006}\U{2007}\U{2008}\U{2009}\U{200a}"
            || c in "\U{2028}\U{2029}\U{202f}\U{205f}\U{3000}"
  {
  }

  /** A run of lo..hi digits, perhaps captured; one character of a class; an optional part; and a
      lookahead for a character that is not a space. */
  datatype Pattern =
    | End
    | Digits(lo: nat, hi: nat, capture: bool, next: Pattern)
    | OneOf(chars: string, next: Pattern)
    | Maybe(body: Pattern, next: Pattern)
    | Ahead(next: Pattern)

  function Then(p: Pattern, q: Pattern): Pattern {
    match p
    case End => q
    case Digits(lo, hi, capture, next) => Digits(lo, hi, capture, Then(next, q))
    case OneOf(chars, next) => OneOf(chars, Then(next, q))
    case Maybe(body, next) => Maybe(body, Then(next, q))
    case Ahead(next) => Ahead(Then(next, q))
  }

  function Size(p: Pattern): nat {
    match p
    case End => 0
    case Digits(_, _, _, next) => 1 + Size(next)
    case OneOf(_, next) => 1 + Size(next)
    case Maybe(body, next) => 1 + Size(body) + Size(next)
    case Ahead(next) => 1 + Size(next)
  }

  lemma {:induction false} SizeThen(p: Pattern, q: Pattern)
    ensures Size(Then(p, q)) == Size(p) + Size(q)
  {
    if p.Digits? || p.OneOf? || p.Maybe? || p.Ahead? {
      SizeThen(p.next, q);
    }
  }

  type Captures = seq<string>

  function Capture(capture: bool, text: string, rest: Option<Captures>): Option<Captures> {
    if capture && rest.Some? then Some([text] + rest.value) else rest
  }

  // ---------- Backtracking ----------

  /** Greedy matching with backtracking; the part of the line after the match is free. */
  function Match(p: Pattern, s: string): Option<Captures>
    decreases Size(p), 1, 0
  {
    match p
    case End => Some([])
    case Digits(lo, hi, capture, next) => MatchDigits(p, s, if hi <= |s| then hi else |s|)
    case OneOf(chars, next) => if s != [] && s[0] in chars then Match(next, s[1..]) else None
    case Maybe(body, next) =>
      SizeThen(body, next);
      var with := Match(Then(body, next), s);
      if with.Some? then with else Match(next, s)
    case Ahead(next) => if s != [] && !IsSpace(s[0]) then Match(next, s) else None
  }

  /** Tries `n` digits, then fewer. */
  function MatchDigits(p: Pattern, s: string, n: nat): Option<Captures>
    requires p.Digits? && n <= |s|
    decreases Size(p), 0, n
  {
    if n < p.lo then None
    else
      var here := if AllDigits(s[..n]) then Capture(p.capture, s[..n], Match(p.next, s[n..])) else None;
      if here.Some? then here
      else if n == 0 then None
      else MatchDigits(p, s, n - 1)
  }

  // ---------- Ways to match ----------

  /** `captures` comes from some way to match `p` at the start of `s`. */
  ghost predicate Derives(p: Pattern, s: string, captures: Captures)
    decreases Size(p)
  {
    match p
    case End => captures == []
    case Digits(lo, hi, capture, next) =>
      exists n: nat :: lo <= n <= hi && n <= |s| && DerivesDigits(p, s, n, captures)
    case OneOf(chars, next) => s != [] && s[0] in chars && Derives(next, s[1..], captures)
    case Maybe(body, next) =>
      SizeThen(body, next);
      Derives(Then(body, next), s, captures) || Derives(next, s, captures)
    case Ahead(next) => s != [] && !IsSpace(s[0]) && Derives(next, s, captures)
  }

  ghost predicate DerivesDigits(p: Pattern, s: string, n: nat, captures: Captures)
    requires p.Digits? && n <= |s|
    decreases Size(p), 0
  {
    && AllDigits(s[..n])
    && if p.capture then captures != [] && captures[0] == s[..n] && Derives(p.next, s[n..], captures[1..])
       else Derives(p.next, s[n..], captures)
  }

  /** Backtracking finds only ways to match. */
  lemma {:induction false} MatchSound(p: Pattern, s: string)
    requires Match(p, s).Some?
    ensures Derives(p, s, Match(p, s).value)
    decreases Size(p), 1, 0
  {
    match p
    case End =>
    case Digits(lo, hi, capture, next) => MatchDigitsSound(p, s, if hi <= |s| then hi else |s|);
    case OneOf(chars, next) => MatchSound(next, s[1..]);
    case Maybe(body, next) =>
      SizeThen(body, next);
      if Match(Then(body, next), s).Some? { MatchSound(Then(body, next), s); } else { MatchSound(next, s); }
    case Ahead(next) => MatchSound(next, s);
  }

  lemma {:induction false} MatchDigitsSound(p: Pattern, s: string, n: nat)
    requires p.Digits? && n <= |s| && n <= p.hi && MatchDigits(p, s, n).Some?
    ensures Derives(p, s, MatchDigits(p, s, n).value)
    decreases Size(p), 0, n
  {
    if AllDigits(s[..n]) && Match(p.next, s[n..]).Some? {
      MatchSound(p.next, s[n..]);
      assert DerivesDigits(p, s, n, MatchDigits(p, s, n).value);
    } else {
      MatchDigitsSound(p, s, n - 1);
    }
  }

  /** Backtracking finds a way to match if there is one. */
  lemma {:induction false} MatchComplete(p: Pattern, s: string, captures: Captures)
    requires Derives(p, s, captures)
    ensures Match(p, s).Some?
    decreases Size(p), 1, 0
  {
    match p
    case End =>
    case Digits(lo, hi, capture, next) =>
      var n: nat :| lo <= n <= hi && n <= |s| && DerivesDigits(p, s, n, captures);
      MatchDigitsComplete(p, s, if hi <= |s| then hi else |s|, n, captures);
    case OneOf(chars, next) => MatchComplete(next, s[1..], captures);
    case Maybe(body, next) =>
      SizeThen(body, next);
      if Derives(Then(body, next), s, captures) {
        MatchComplete(Then(body, next), s, captures);
      } else {
        MatchComplete(next, s, captures);
      }
    case Ahead(next) => MatchComplete(next, s, captures);
  }

  lemma {:induction false} MatchDigitsComplete(p: Pattern, s: string, n: nat, m: nat, captures: Captures)
    requires p.Digits? && p.lo <= m <= n <= |s| && DerivesDigits(p, s, m, captures)
    ensures MatchDigits(p, s, n).Some?
    decreases Size(p), 0, n
  {
    if m == n {
      MatchComplete(p.next, s[n..], if p.capture then captures[1..] else captures);
    } else {
      MatchDigitsComplete(p, s, n - 1, m, captures);
    }
  }

  // ---------- Reading without backtracking ----------

  /** The number of digits at the start of `s`. */
  function DigitRun(s: string): (n: nat)
    ensures n <= |s| && AllDigits(s[..n])
    ensures n < |s| ==> !IsDigit(s[n])
  {
    if s == [] || !IsDigit(s[0]) then 0 else 1 + DigitRun(s[1..])
  }

  /** Characters a match of `p` can begin with. */
  predicate Starts(p: Pattern, c: char) {
    match p
    case End => true
    case Digits(_, _, _, _) => IsDigit(c)
    case OneOf(chars, _) => c in chars
    case Maybe(body, next) => Starts(body, c) || Starts(next, c)
    case Ahead(_) => !IsSpace(c)
  }

  /** Takes every digit of a run, and an optional part exactly when the next character begins it. */
  function Reads(p: Pattern, s: string): Option<Captures>
    decreases Size(p)
  {
    match p
    case End => Some([])
    case Digits(lo, hi, capture, next) =>
      var n := DigitRun(s);
      if lo <= n <= hi then Capture(capture, s[..n], Reads(next, s[n..])) else None
    case OneOf(chars, next) => if s != [] && s[0] in chars then Reads(next, s[1..]) else None
    case Maybe(body, next) =>
      SizeThen(body, next);
      if s != [] && Starts(body, s[0]) then Reads(Then(body, next), s) else Reads(next, s)
    case Ahead(next) => if s != [] && !IsSpace(s[0]) then Reads(next, s) else None
  }

  /** A match of `p` takes or looks at one character at least. */
  predicate Needs(p: Pattern) {
    match p
    case End => false
    case Digits(lo, _, _, _) => lo > 0
    case OneOf(_, _) => true
    case Maybe(body, next) => Needs(body) && Needs(next)
    case Ahead(_) => true
  }

  /** No digit can follow a run of digits, and nothing can follow an optional part that could also
      begin it. */
  ghost predicate Deterministic(p: Pattern)
    decreases Size(p)
  {
    match p
    case End => true
    case Digits(lo, hi, _, next) =>
      lo > 0 && Needs(next) && (forall c :: IsDigit(c) ==> !Starts(next, c)) && Deterministic(next)
    case OneOf(_, next) => Deterministic(next)
    case Maybe(body, next) =>
      SizeThen(body, next);
      && Needs(body) && Needs(next)
      && (forall c :: Starts(body, c) ==> !Starts(next, c))
      && Deterministic(Then(body, next)) && Deterministic(next)
    case Ahead(next) => Deterministic(next)
  }

  lemma {:induction false} StartsThen(p: Pattern, q: Pattern, c: char)
    requires Needs(p)
    ensures Needs(Then(p, q)) || (p.Maybe? && !Needs(Then(p.next, q)))
    ensures Starts(Then(p, q), c) <==> Starts(p, c)
  {
    if p.Maybe? { StartsThen(p.next, q, c); }
  }

  lemma {:induction false} NeedsThen(p: Pattern, q: Pattern)
    requires Needs(p)
    ensures Needs(Then(p, q))
  {
    if p.Maybe? { NeedsThen(p.next, q); }
  }

  /** Every match begins with a character that `Starts` allows. */
  lemma {:induction false} DerivesStarts(p: Pattern, s: string, captures: Captures)
    requires Needs(p) && Derives(p, s, captures)
    ensures s != [] && Starts(p, s[0])
    decreases Size(p)
  {
    match p
    case Digits(lo, hi, capture, next) =>
      var n: nat :| lo <= n <= hi && n <= |s| && DerivesDigits(p, s, n, captures);
      assert s[..n][0] == s[0];
    case Maybe(body, next) =>
      SizeThen(body, next);
      if Derives(Then(body, next), s, captures) {
        NeedsThen(body, next);
        DerivesStarts(Then(body, next), s, captures);
        StartsThen(body, next, s[0]);
      } else {
        DerivesStarts(next, s, captures);
      }
    case _ =>
  }

  lemma RunIsForced(s: string, n: nat)
    requires n <= |s| && AllDigits(s[..n]) && n < |s| && !IsDigit(s[n])
    ensures DigitRun(s) == n
  {
    assert forall i :: 0 <= i < n ==> s[..n][i] == s[i];
    assert forall i :: 0 <= i < DigitRun(s) ==> s[..DigitRun(s)][i] == s[i];
  }

  /** A deterministic pattern matches in one way at most: the way that reads without backtracking. */
  lemma {:induction false} OneWay(p: Pattern, s: string, captures: Captures)
    requires Deterministic(p) && Derives(p, s, captures)
    ensures Reads(p, s) == Some(captures)
    decreases Size(p)
  {
    match p
    case End =>
    case Digits(lo, hi, capture, next) =>
      var n: nat :| lo <= n <= hi && n <= |s| && DerivesDigits(p, s, n, captures);
      var rest := if capture then captures[1..] else captures;
      DerivesStarts(next, s[n..], rest);
      assert s[n..][0] == s[n] && !IsDigit(s[n]);
      RunIsForced(s, n);
      OneWay(next, s[n..], rest);
      assert capture ==> [s[..n]] + rest == captures;
    case OneOf(chars, next) => OneWay(next, s[1..], captures);
    case Maybe(body, next) =>
      SizeThen(body, next);
      if Derives(Then(body, next), s, captures) {
        NeedsThen(body, next);
        DerivesStarts(Then(body, next), s, captures);
        StartsThen(body, next, s[0]);
        OneWay(Then(body, next), s, captures);
      } else {
        DerivesStarts(next, s, captures);
        OneWay(next, s, captures);
      }
    case Ahead(next) => OneWay(next, s, captures);
  }

  /** Reading without backtracking finds only ways to match. */
  lemma {:induction false} ReadsSound(p: Pattern, s: string)
    requires Reads(p, s).Some?
    ensures Derives(p, s, Reads(p, s).value)
    decreases Size(p)
  {
    match p
    case End =>
    case Digits(lo, hi, capture, next) =>
      var n := DigitRun(s);
      ReadsSound(next, s[n..]);
      assert DerivesDigits(p, s, n, Reads(p, s).value);
    case OneOf(chars, next) => ReadsSound(next, s[1..]);
    case Maybe(body, next) =>
      SizeThen(body, next);
      if s != [] && Starts(body, s[0]) { ReadsSound(Then(body, next), s); } else { ReadsSound(next, s); }
    case Ahead(next) => ReadsSound(next, s);
  }

  /** For a deterministic pattern, backtracking and reading straight through agree. */
  lemma MatchIsReads(p: Pattern, s: string)
    requires Deterministic(p)
    ensures Match(p, s) == Reads(p, s)
  {
    if Match(p, s).Some? {
      MatchSound(p, s);
      OneWay(p, s, Match(p, s).value);
    } else if Reads(p, s).Some? {
      ReadsSound(p, s);
      MatchComplete(p, s, Reads(p, s).value);
      assert false;
    }
  }
}
