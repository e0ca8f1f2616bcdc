/** Splitting a text into lines and joining them again, as Python's strings do. */
module Lines {
  /** The characters at which `splitlines` ends a line. */
  predicate IsBoundary(c: char) {
    || '\n' <= c <= '\r' || '\U{001c}' <= c <= '\U{001e}'
    || c == '\U{0085}' || c == '\U{2028}' || c == '\U{2029}'
  }

  function LineEnd(s: string): (n: nat)
    ensures n <= |s| && (n < |s| ==> IsBoundary(s[n]))
    ensures forall i :: 0 <= i < n ==> !IsBoundary(s[i])
  {
    if s == [] || IsBoundary(s[0]) then 0 else 1 + LineEnd(s[1..])
  }

  /** `splitlines`: a carriage return and line feed together end one line, and the end of the text
      does not begin another. */
  function SplitLines(s: string): seq<string>
    decreases |s|
  {
    if s == [] then []
    else
      var n := LineEnd(s);
      if n == |s| then [s]
      else
        var after := if s[n] == '\r' && n + 1 < |s| && s[n + 1] == '\n' then n + 2 else n + 1;
        [s[..n]] + SplitLines(s[after..])
  }

  function Join(lines: seq<string>): string {
    if lines == [] then ""
    else if |lines| == 1 then lines[0]
    else lines[0] + ['\n'] + Join(lines[1..])
  }

  predicate NoBoundary(s: string) {
    forall i :: 0 <= i < |s| ==> !IsBoundary(s[i])
  }

  lemma {:induction false} LineEndIs(first: string, rest: string)
    requires NoBoundary(first) && (rest != [] ==> IsBoundary(rest[0]))
    ensures LineEnd(first + rest) == |first|
  {
    if first == [] {
      assert first + rest == rest;
    } else {
      LineEndIs(first[1..], rest);
      assert (first + rest)[1..] == first[1..] + rest;
    }
  }

  lemma SplitFirst(first: string, rest: string)
    requires NoBoundary(first)
    ensures SplitLines(first + ['\n'] + rest) == [first] + SplitLines(rest)
  {
    var s, n := first + ['\n'] + rest, |first|;
    LineEndIs(first, ['\n'] + rest);
    assert s == first + (['\n'] + rest);
    assert s[n] == '\n' && s[..n] == first && s[n + 1..] == rest;
  }

  /** Joining lines and splitting the text again gives the lines back, but for one empty line at the
      end. */
  lemma {:induction false} SplitJoin(lines: seq<string>)
    requires forall i :: 0 <= i < |lines| ==> NoBoundary(lines[i])
    ensures SplitLines(Join(lines)) ==
            if lines != [] && lines[|lines| - 1] == [] then lines[..|lines| - 1] else lines
    decreases |lines|
  {
    if |lines| == 1 {
      if lines[0] != [] {
        LineEndIs(lines[0], []);
        assert lines[0] + [] == lines[0];
      }
    } else if |lines| > 1 {
      SplitJoin(lines[1..]);
      SplitFirst(lines[0], Join(lines[1..]));
    }
  }

  /** The lines of a text hold no boundary. */
  lemma {:induction false} SplitHasNoBoundary(s: string)
    ensures forall i :: 0 <= i < |SplitLines(s)| ==> NoBoundary(SplitLines(s)[i])
    decreases |s|
  {
    if s != [] {
      var n := LineEnd(s);
      if n < |s| {
        var after := if s[n] == '\r' && n + 1 < |s| && s[n + 1] == '\n' then n + 2 else n + 1;
        SplitHasNoBoundary(s[after..]);
      }
    }
  }

  // ---------- In terms of characters ----------

  /** The characters that end a line. */
  const LINE_ENDS := "\n\U{000b}\U{000c}\r\U{001c}\U{001d}\U{001e}\U{0085}\U{2028}\U{2029}"

  lemma BoundaryIff(c: char)
    ensures IsBoundary(c) <==> c in LINE_ENDS
  {
    assert forall i :: 0 <= i < |LINE_ENDS| ==> IsBoundary(LINE_ENDS[i]);
    if IsBoundary(c) {
      assert '\U{000b}' == LINE_ENDS[1] && '\U{000c}' == LINE_ENDS[2] && '\U{001d}' == LINE_ENDS[5];
    }
  }

  /** A text without such a character is one line, or none if it is empty. A line, one of these characters and
      more text are that line and the lines of what follows, where a carriage return takes a line feed after
      it with it. */
  lemma SplitMeaning(line: string, end: char, rest: string)
    requires forall i :: 0 <= i < |line| ==> line[i] !in LINE_ENDS
    ensures SplitLines(line) == if line == [] then [] else [line]
    ensures end in LINE_ENDS ==>
              SplitLines(line + [end] + rest) ==
              [line] + SplitLines(if end == '\r' && rest != [] && rest[0] == '\n' then rest[1..] else rest)
  {
    forall i | 0 <= i < |line| ensures !IsBoundary(line[i]) { BoundaryIff(line[i]); }
    BoundaryIff(end);
    LineEndIs(line, []);
    assert line + [] == line;
    if end in LINE_ENDS {
      var s, n := line + [end] + rest, |line|;
      LineEndIs(line, [end] + rest);
      assert s == line + ([end] + rest);
      assert s[n] == end && s[..n] == line && s[n + 1..] == rest;
      if rest != [] { assert s[n + 1] == rest[0] && s[n + 2..] == rest[1..]; }
    }
  }

  /** Joining puts one line feed between any two lines, and nothing else. */
  lemma {:induction false} JoinMeaning(a: seq<string>, b: seq<string>)
    requires a != [] && b != []
    ensures Join(a + b) == Join(a) + "\n" + Join(b)
    ensures |a| == 1 ==> Join(a) == a[0]
  {
    assert (a + b)[1..] == a[1..] + b;
    if |a| > 1 {
      JoinMeaning(a[1..], b);
      assert a[0] + ['\n'] + (Join(a[1..]) + "\n" + Join(b)) == a[0] + ['\n'] + Join(a[1..]) + "\n" + Join(b);
    } else {
      assert (a + b)[1..] == b;
    }
  }
}
