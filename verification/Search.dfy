/** The event search: escaping a search text for LIKE, and what the escaped pattern matches. */
module Search {
  import opened Wrappers

  const META := "\\%_"

  // ---------- Escaping ----------

  /** `replace` of a single character. */
  function Replace(s: string, c: char, rep: string): string {
    if s == [] then [] else (if s[0] == c then rep else [s[0]]) + Replace(s[1..], c, rep)
  }

  /** The three chained replaces: the escape character first. */
  function Escape(search: string): string {
    Replace(Replace(Replace(search, '\\', "\\\\"), '%', "\\%"), '_', "\\_")
  }

  function LikePattern(search: string): string {
    "%" + Escape(search) + "%"
  }

  // ---------- LIKE ----------

  datatype Token = AnyText | AnyChar | Exactly(c: char)

  /** A pattern read with escape character `\`, which must stand before a metacharacter. */
  function Tokens(pattern: string): Option<seq<Token>> {
    if pattern == [] then Some([])
    else if pattern[0] == '\\' then
      if |pattern| > 1 && pattern[1] in META then Prepend(Exactly(pattern[1]), Tokens(pattern[2..])) else None
    else
      var token := if pattern[0] == '%' then AnyText else if pattern[0] == '_' then AnyChar else Exactly(pattern[0]);
      Prepend(token, Tokens(pattern[1..]))
  }

  function Prepend(token: Token, tokens: Option<seq<Token>>): Option<seq<Token>> {
    if tokens == None then None else Some([token] + tokens.value)
  }

  /** The whole text can be split into pieces that the tokens describe. */
  predicate Matches(tokens: seq<Token>, text: string)
    decreases |tokens|, |text|
  {
    if tokens == [] then text == []
    else match tokens[0]
      case AnyText => Matches(tokens[1..], text) || (text != [] && Matches(tokens, text[1..]))
      case AnyChar => text != [] && Matches(tokens[1..], text[1..])
      case Exactly(c) => text != [] && text[0] == c && Matches(tokens[1..], text[1..])
  }

  function Folded(s: string, fold: char -> char): string {
    if s == [] then [] else [fold(s[0])] + Folded(s[1..], fold)
  }

  /** `ILIKE … ESCAPE '\'`: both sides folded, then matched; none for a malformed pattern. */
  function ILike(text: string, pattern: string, fold: char -> char): Option<bool> {
    var tokens := Tokens(Folded(pattern, fold));
    if tokens == None then None else Some(Matches(tokens.value, Folded(text, fold)))
  }

  /** Case folding leaves the metacharacters alone and maps nothing else onto them. */
  ghost predicate FoldsCase(fold: char -> char) {
    forall c: char {:trigger fold(c)} :: if c in META then fold(c) == c else fold(c) !in META
  }

  predicate Occurs(word: string, text: string) {
    exists i :: 0 <= i <= |text| && word <= text[i..]
  }

  // ---------- What escaping does ----------

  function EscapeChar(c: char): string {
    if c in META then ['\\', c] else [c]
  }

  function Literally(s: string): seq<Token> {
    if s == [] then [] else [Exactly(s[0])] + Literally(s[1..])
  }

  lemma Associative<T>(a: seq<T>, b: seq<T>, c: seq<T>)
    ensures a + (b + c) == (a + b) + c
  {
  }

  lemma {:induction false} ReplaceConcat(s: string, t: string, c: char, rep: string)
    ensures Replace(s + t, c, rep) == Replace(s, c, rep) + Replace(t, c, rep)
  {
    if s == [] {
      assert s + t == t;
    } else {
      ReplaceConcat(s[1..], t, c, rep);
      assert (s + t)[1..] == s[1..] + t && (s + t)[0] == s[0];
      Associative(if s[0] == c then rep else [s[0]], Replace(s[1..], c, rep), Replace(t, c, rep));
    }
  }

  lemma EscapeOne(c: char)
    ensures Escape([c]) == EscapeChar(c)
  {
    var one := Replace([c], '\\', "\\\\");
    assert Replace([c], '\\', "\\\\") == (if c == '\\' then "\\\\" else [c]) + Replace([], '\\', "\\\\");
    assert "\\\\" == ['\\'] + ['\\'];
    assert one == if c == '\\' then ['\\'] + ['\\'] else [c];
    if c == '\\' {
      ReplaceConcat(['\\'], ['\\'], '%', "\\%");
      ReplaceConcat(['\\'], ['\\'], '_', "\\_");
    } else if c == '%' {
      ReplaceConcat(['\\'], ['%'], '_', "\\_");
      assert ['\\'] + ['%'] == "\\%";
    }
  }

  /** The three replaces escape character by character. */
  lemma EscapeFirst(s: string)
    requires s != []
    ensures Escape(s) == EscapeChar(s[0]) + Escape(s[1..])
  {
    assert s == [s[0]] + s[1..];
    ReplaceConcat([s[0]], s[1..], '\\', "\\\\");
    var a, b := Replace([s[0]], '\\', "\\\\"), Replace(s[1..], '\\', "\\\\");
    ReplaceConcat(a, b, '%', "\\%");
    ReplaceConcat(Replace(a, '%', "\\%"), Replace(b, '%', "\\%"), '_', "\\_");
    EscapeOne(s[0]);
  }

  /** Folding an escaped text is escaping the folded text. */
  lemma {:induction false} FoldEscape(s: string, fold: char -> char)
    requires FoldsCase(fold)
    ensures Folded(Escape(s), fold) == Escape(Folded(s, fold))
  {
    if s != [] {
      EscapeFirst(s);
      EscapeFirst(Folded(s, fold));
      FoldEscape(s[1..], fold);
      FoldConcat(EscapeChar(s[0]), Escape(s[1..]), fold);
      assert Folded(EscapeChar(s[0]), fold) == EscapeChar(fold(s[0]));
      assert Folded(s, fold)[1..] == Folded(s[1..], fold);
    }
  }

  lemma {:induction false} FoldConcat(s: string, t: string, fold: char -> char)
    ensures Folded(s + t, fold) == Folded(s, fold) + Folded(t, fold)
  {
    if s == [] {
      assert s + t == t;
    } else {
      FoldConcat(s[1..], t, fold);
      assert (s + t)[1..] == s[1..] + t && (s + t)[0] == s[0];
      Associative([fold(s[0])], Folded(s[1..], fold), Folded(t, fold));
    }
  }

  lemma EscapedCharReads(c: char, more: string)
    ensures Tokens(EscapeChar(c) + more) == Prepend(Exactly(c), Tokens(more))
  {
    var p := EscapeChar(c) + more;
    if c in META { assert p[2..] == more; } else { assert p[1..] == more; }
  }

  /** The escaped text reads as itself, and nothing that stands after it reads differently. */
  lemma {:induction false} EscapeReadsLiterally(s: string, rest: string)
    requires Tokens(rest).Some?
    ensures Tokens(Escape(s) + rest) == Some(Literally(s) + Tokens(rest).value)
  {
    if s == [] {
      assert Escape(s) + rest == rest;
      assert Literally(s) + Tokens(rest).value == Tokens(rest).value;
    } else {
      EscapeFirst(s);
      EscapeReadsLiterally(s[1..], rest);
      var more := Escape(s[1..]) + rest;
      EscapedCharReads(s[0], more);
      Associative(EscapeChar(s[0]), Escape(s[1..]), rest);
      Associative([Exactly(s[0])], Literally(s[1..]), Tokens(rest).value);
      assert Tokens(EscapeChar(s[0]) + more) == Some([Exactly(s[0])] + Tokens(more).value);
    }
  }

  lemma {:induction false} AnyTextMatches(text: string)
    ensures Matches([AnyText], text)
  {
    if text != [] { AnyTextMatches(text[1..]); }
  }

  lemma {:induction false} LiterallyThenAny(word: string, text: string)
    ensures Matches(Literally(word) + [AnyText], text) <==> word <= text
  {
    var tokens := Literally(word) + [AnyText];
    if word == [] {
      assert tokens == [AnyText];
      AnyTextMatches(text);
    } else {
      assert tokens[1..] == Literally(word[1..]) + [AnyText];
      if text != [] {
        LiterallyThenAny(word[1..], text[1..]);
        assert word <= text <==> word[0] == text[0] && word[1..] <= text[1..];
      }
    }
  }

  lemma {:induction false} SomewhereInside(word: string, text: string)
    ensures Matches([AnyText] + (Literally(word) + [AnyText]), text) <==> Occurs(word, text)
  {
    var tokens := [AnyText] + (Literally(word) + [AnyText]);
    assert tokens[1..] == Literally(word) + [AnyText];
    LiterallyThenAny(word, text);
    assert text[0..] == text;
    if text != [] {
      SomewhereInside(word, text[1..]);
      if Occurs(word, text[1..]) {
        var i :| 0 <= i <= |text[1..]| && word <= text[1..][i..];
        assert text[1..][i..] == text[i + 1..];
      }
      if i :| 1 <= i <= |text| && word <= text[i..] {
        assert text[1..][i - 1..] == text[i..];
      }
    }
  }

  /** Searching is literal substring search up to case: the escaped pattern is always well-formed and
      matches exactly the texts in which the search text occurs. */
  lemma SearchIsSubstringSearch(search: string, text: string, fold: char -> char)
    requires FoldsCase(fold)
    ensures ILike(text, LikePattern(search), fold) == Some(Occurs(Folded(search, fold), Folded(text, fold)))
  {
    var word := Folded(search, fold);
    FoldConcat("%" + Escape(search), "%", fold);
    FoldConcat("%", Escape(search), fold);
    FoldEscape(search, fold);
    var pattern := Folded(LikePattern(search), fold);
    assert pattern == "%" + (Escape(word) + "%");
    assert "%"[1..] == [] && Tokens([]) == Some([]);
    assert Tokens("%") == Prepend(AnyText, Tokens("%"[1..])) && [AnyText] + [] == [AnyText];
    EscapeReadsLiterally(word, "%");
    assert pattern[1..] == Escape(word) + "%";
    SomewhereInside(word, Folded(text, fold));
  }
}
