/** The converse of printing: every line that the formats match begins with a stamp. */
module Recognition {
  import opened Wrappers
  import opened Patterns
  import opened Stamps
  import opened Printing

  lemma Head(s: string)
    requires s != []
    ensures s == [s[0]] + s[1..]
  {
  }

  lemma TakeOne(chars: string, next: Pattern, s: string) returns (c: char, rest: string)
    requires Plain(next) && Consume(OneOf(chars, next), s).Some?
    ensures c in chars && s == [c] + rest && Consume(next, rest) == Consume(OneOf(chars, next), s)
  {
    c, rest := s[0], s[1..];
  }

  lemma TakeRun(lo: nat, hi: nat, capture: bool, next: Pattern, s: string) returns (d: string, rest: string)
    requires Plain(next) && Consume(Digits(lo, hi, capture, next), s).Some?
    ensures Run(d, lo, hi) && s == d + rest && Consume(next, rest).Some?
    ensures var (captures, after) := Consume(next, rest).value;
            Consume(Digits(lo, hi, capture, next), s) ==
              Some((if capture then [d] + captures else captures, after))
  {
    d, rest := s[..DigitRun(s)], s[DigitRun(s)..];
  }

  lemma TakeClock(s: string) returns (hour: string, minute: string, rest: string)
    requires Plain(CLOCK) && Consume(CLOCK, s).Some?
    ensures Run(hour, 1, 2) && Run(minute, 2, 2) && s == ClockText(hour, minute, rest)
    ensures Consume(CLOCK, s) == Some(([], rest))
  {
    var p1 := Digits(2, 2, false, End);
    var p2 := OneOf(":", p1);
    var p3 := Digits(1, 2, false, p2);
    assert Plain(p1) && Plain(p2) && Plain(p3) && Plain(OneOf(" ", p3));
    var c, s1 := TakeOne(",", OneOf(" ", p3), s);
    var c', s2 := TakeOne(" ", p3, s1);
    var s3, s4;
    hour, s3 := TakeRun(1, 2, false, p2, s2);
    var c'';
    c'', s4 := TakeOne(":", p1, s3);
    minute, rest := TakeRun(2, 2, false, End, s4);
  }

  /** A captured run and the clock after it. */
  lemma TakeRunAndClock(lo: nat, hi: nat, s: string) returns (d: string, hour: string, minute: string, rest: string)
    requires Plain(CLOCK) && Consume(Digits(lo, hi, true, CLOCK), s).Some?
    ensures Run(d, lo, hi) && Run(hour, 1, 2) && Run(minute, 2, 2) && s == d + ClockText(hour, minute, rest)
    ensures Consume(Digits(lo, hi, true, CLOCK), s) == Some(([d], rest))
  {
    var t;
    d, t := TakeRun(lo, hi, true, CLOCK, s);
    hour, minute, rest := TakeClock(t);
    assert [d] + [] == [d];
  }

  /** A captured run and the separator after it. */
  lemma TakeRunAndOne(lo: nat, hi: nat, chars: string, next: Pattern, s: string)
    returns (d: string, c: char, rest: string)
    requires Plain(next) && Consume(Digits(lo, hi, true, OneOf(chars, next)), s).Some?
    ensures Run(d, lo, hi) && c in chars && s == d + ([c] + rest) && Consume(next, rest).Some?
    ensures Consume(Digits(lo, hi, true, OneOf(chars, next)), s) ==
              Some(([d] + Consume(next, rest).value.0, Consume(next, rest).value.1))
  {
    var t;
    d, t := TakeRun(lo, hi, true, OneOf(chars, next), s);
    c, rest := TakeOne(chars, next, t);
  }

  /** The second component, the year and the clock. */
  lemma TakeSecondOn(s: string)
    returns (b: string, sep2: char, year: string, hour: string, minute: string, rest: string)
    requires Plain(Digits(2, 4, true, CLOCK))
    requires Consume(Digits(1, 2, true, OneOf(SEPARATORS, Digits(2, 4, true, CLOCK))), s).Some?
    ensures Run(b, 1, 2) && sep2 in SEPARATORS && Run(year, 2, 4) && Run(hour, 1, 2) && Run(minute, 2, 2)
    ensures s == b + ([sep2] + (year + ClockText(hour, minute, rest)))
    ensures Consume(Digits(1, 2, true, OneOf(SEPARATORS, Digits(2, 4, true, CLOCK))), s) == Some(([b, year], rest))
  {
    var t;
    b, sep2, t := TakeRunAndOne(1, 2, SEPARATORS, Digits(2, 4, true, CLOCK), s);
    year, hour, minute, rest := TakeRunAndClock(2, 4, t);
    assert [b] + [year] == [b, year];
  }

  lemma TakeFields(s: string) returns (f: Fields, rest: string)
    requires Plain(DATE_AND_TIME) && Consume(DATE_AND_TIME, s).Some?
    ensures FieldsOk(f) && s == FieldsText(f, rest)
    ensures Consume(DATE_AND_TIME, s) == Some(([f.a, f.b, f.year], rest))
  {
    PrefixesSeparated();
    var p := Digits(1, 2, true, OneOf(SEPARATORS, Digits(2, 4, true, CLOCK)));
    assert Plain(p);
    var a, sep1, t := TakeRunAndOne(1, 2, SEPARATORS, p, s);
    var b, sep2, year, hour, minute;
    b, sep2, year, hour, minute, rest := TakeSecondOn(t);
    f := Fields(a, sep1, b, sep2, year, hour, minute);
    assert [a] + [b, year] == [a, b, year];
  }

  lemma TakeIsoFields(s: string)
    returns (year: string, month: string, day: string, hour: string, minute: string, rest: string)
    requires Plain(ISO_DATE_AND_TIME) && Consume(ISO_DATE_AND_TIME, s).Some?
    ensures Run(year, 4, 4) && Run(month, 2, 2) && Run(day, 2, 2) && Run(hour, 1, 2) && Run(minute, 2, 2)
    ensures s == year + (['-'] + (month + (['-'] + (day + ClockText(hour, minute, rest)))))
    ensures Consume(ISO_DATE_AND_TIME, s) == Some(([year, month, day], rest))
  {
    PrefixesSeparated();
    var p1 := Digits(2, 2, true, CLOCK);
    var p2 := Digits(2, 2, true, OneOf("-", p1));
    assert Plain(p1) && Plain(p2);
    var c, c', s1, s2;
    year, c, s1 := TakeRunAndOne(4, 4, "-", p2, s);
    month, c', s2 := TakeRunAndOne(2, 2, "-", p1, s1);
    day, hour, minute, rest := TakeRunAndClock(2, 2, s2);
    assert [year] + ([month] + [day]) == [year, month, day];
  }

  lemma TakeIosEnd(s: string) returns (sender: string)
    requires Reads(IOS_END, s).Some?
    ensures SenderOk(sender) && s == IosEndText(sender) && Reads(IOS_END, s) == Some([])
  {
    Head(s);
    assert Reads(OneOf(" ", Ahead(End)), s[1..]).Some?;
    Head(s[1..]);
    sender := s[1..][1..];
    assert Reads(Ahead(End), sender).Some?;
  }

  lemma TakeAndroidEnd(s: string) returns (sender: string)
    requires Reads(ANDROID_END, s).Some?
    ensures SenderOk(sender) && s == AndroidEndText(sender) && Reads(ANDROID_END, s) == Some([])
  {
    var p := OneOf(" ", Ahead(End));
    Head(s);
    assert Reads(OneOf("-", p), s[1..]).Some?;
    Head(s[1..]);
    assert Reads(p, s[1..][1..]).Some?;
    Head(s[1..][1..]);
    sender := s[1..][1..][1..];
    assert Reads(Ahead(End), sender).Some?;
  }

  lemma TakeMarker(q: Pattern, s: string) returns (m: Marker, rest: string)
    requires Reads(Then(MARKER, q), s).Some?
    ensures MarkerOk(m) && s == MarkerText(m, rest) && Reads(q, rest) == Reads(Then(MARKER, q), s)
  {
    var letters := OneOf("AaPp", OneOf("Mm", q));
    assert Then(OneOf("Mm", End), q) == OneOf("Mm", q);
    assert Then(OneOf("AaPp", OneOf("Mm", End)), q) == letters;
    assert Then(MARKER, q) == Maybe(OneOf(SPACES, End), letters);
    assert Then(OneOf(SPACES, End), letters) == OneOf(SPACES, letters);
    var space: Option<char> := None;
    var t := s;
    if s != [] && Starts(OneOf(SPACES, End), s[0]) {
      Head(s);
      space, t := Some(s[0]), s[1..];
    }
    assert Reads(letters, t).Some?;
    Head(t);
    assert Reads(OneOf("Mm", q), t[1..]).Some?;
    Head(t[1..]);
    m, rest := Marker(space, t[0], t[1..][0]), t[1..][1..];
  }

  lemma TakeIosTail(s: string) returns (seconds: Option<string>, marker: Option<Marker>, sender: string)
    requires Reads(Maybe(SECONDS, Maybe(MARKER, IOS_END)), s).Some?
    ensures (seconds.Some? ==> Run(seconds.value, 2, 2)) && (marker.Some? ==> MarkerOk(marker.value))
    ensures SenderOk(sender)
    ensures var after := if marker.Some? then MarkerText(marker.value, IosEndText(sender)) else IosEndText(sender);
            s == if seconds.Some? then [':'] + (seconds.value + after) else after
    ensures Reads(Maybe(SECONDS, Maybe(MARKER, IOS_END)), s) == Some([])
  {
    var p := Maybe(MARKER, IOS_END);
    assert Then(SECONDS, p) == OneOf(":", Digits(2, 2, false, p));
    var t := s;
    seconds := None;
    if s != [] && Starts(SECONDS, s[0]) {
      Head(s);
      var n := DigitRun(s[1..]);
      assert Reads(Digits(2, 2, false, p), s[1..]).Some?;
      seconds, t := Some(s[1..][..n]), s[1..][n..];
      assert s[1..] == seconds.value + t;
    }
    assert Reads(p, t).Some?;
    marker := None;
    var end := t;
    if t != [] && Starts(MARKER, t[0]) {
      var m;
      m, end := TakeMarker(IOS_END, t);
      marker := Some(m);
    }
    sender := TakeIosEnd(end);
  }

  /** A line that some format matches begins with a well-formed stamp of that format and a sender. */
  lemma MatchedLineIsPrinted(line: string, i: nat) returns (stamp: Stamp, sender: string)
    requires i < 4 && Reads(Format(i), line).Some?
    ensures StampOk(stamp) && SenderOk(sender) && line == Text(stamp, sender)
  {
    PrefixesSeparated();
    if i == 0 {
      Head(line);
      var s := line[1..];
      ReadsThen(ISO_DATE_AND_TIME, Then(SECONDS, IOS_END), s);
      var year, month, day, hour, minute, rest := TakeIsoFields(s);
      ReadsThen(SECONDS, IOS_END, rest);
      var c, t := TakeOne(":", Digits(2, 2, false, End), rest);
      var second, end := TakeRun(2, 2, false, End, t);
      sender := TakeIosEnd(end);
      stamp := IsoStamp(year, month, day, hour, minute, second);
    } else if i == 1 {
      Head(line);
      var s := line[1..];
      ReadsThen(DATE_AND_TIME, Maybe(SECONDS, Maybe(MARKER, IOS_END)), s);
      var f, rest := TakeFields(s);
      var seconds, marker;
      seconds, marker, sender := TakeIosTail(rest);
      stamp := IosStamp(f, seconds, marker);
    } else {
      ReadsThen(DATE_AND_TIME, if i == 2 then Then(MARKER, ANDROID_END) else ANDROID_END, line);
      var f, rest := TakeFields(line);
      var marker: Option<Marker> := None;
      if i == 2 {
        var m;
        m, rest := TakeMarker(ANDROID_END, rest);
        marker := Some(m);
      }
      sender := TakeAndroidEnd(rest);
      stamp := AndroidStamp(f, marker);
    }
  }

  lemma {:induction false} SomeFormatMatches(k: nat, line: string) returns (i: nat)
    requires k <= 4 && MatchFrom(k, line).Some?
    ensures i < 4 && Match(Format(i), line).Some?
    decreases 4 - k
  {
    if Match(Format(k), line).Some? { i := k; } else { i := SomeFormatMatches(k + 1, line); }
  }

  /** The stamp grammar in one statement: a line is read as dated exactly when it is a well-formed
      stamp followed by a sender, and then its components are that stamp's. */
  lemma DatedLinesAreStamps(line: string, ld: LineDate)
    ensures MatchLine(line) == Some(ld) <==>
            exists stamp, sender ::
              StampOk(stamp) && SenderOk(sender) && line == Text(stamp, sender) && DateOf(stamp) == ld
  {
    if MatchLine(line).Some? {
      var i := SomeFormatMatches(0, line);
      FormatsDeterministic(i);
      MatchIsReads(Format(i), line);
      var stamp, sender := MatchedLineIsPrinted(line, i);
      PrintedStampIsRead(stamp, sender);
    }
    forall stamp, sender | StampOk(stamp) && SenderOk(sender) && line == Text(stamp, sender)
      ensures MatchLine(line) == Some(DateOf(stamp))
    {
      PrintedStampIsRead(stamp, sender);
    }
  }
}
