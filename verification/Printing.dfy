/** Stamps as an export writes them, and why the formats recognise exactly these. */
module Printing {
  import opened Wrappers
  import opened Patterns
  import opened Stamps

  /** The parts that the ambiguous formats share, as the texts written. */
  datatype Fields = Fields(a: string, sep1: char, b: string, sep2: char, year: string, hour: string, minute: string)

  /** An AM/PM marker, after a space or not. */
  datatype Marker = Marker(space: Option<char>, half: char, m: char)

  datatype Stamp =
    | IsoStamp(year: string, month: string, day: string, hour: string, minute: string, second: string)
    | IosStamp(fields: Fields, seconds: Option<string>, marker: Option<Marker>)
    | AndroidStamp(fields: Fields, marker: Option<Marker>)

  predicate Run(s: string, lo: nat, hi: nat) {
    AllDigits(s) && lo <= |s| <= hi
  }

  predicate FieldsOk(f: Fields) {
    && Run(f.a, 1, 2) && f.sep1 in "./-" && Run(f.b, 1, 2) && f.sep2 in "./-"
    && Run(f.year, 2, 4) && Run(f.hour, 1, 2) && Run(f.minute, 2, 2)
  }

  predicate MarkerOk(m: Marker) {
    (m.space.Some? ==> m.space.value in " \U{00a0}\U{202f}") && m.half in "AaPp" && m.m in "Mm"
  }

  predicate StampOk(stamp: Stamp) {
    match stamp
    case IsoStamp(year, month, day, hour, minute, second) =>
      Run(year, 4, 4) && Run(month, 2, 2) && Run(day, 2, 2) && Run(hour, 1, 2) && Run(minute, 2, 2) && Run(second, 2, 2)
    case IosStamp(f, seconds, marker) =>
      FieldsOk(f) && (seconds.Some? ==> Run(seconds.value, 2, 2)) && (marker.Some? ==> MarkerOk(marker.value))
    case AndroidStamp(f, marker) => FieldsOk(f) && (marker.Some? ==> MarkerOk(marker.value))
  }

  /** A sender begins with a character that is not a space. */
  predicate SenderOk(sender: string) {
    sender != [] && !IsSpace(sender[0])
  }

  // ---------- Text ----------

  function ClockText(hour: string, minute: string, rest: string): string {
    [','] + ([' '] + (hour + ([':'] + (minute + rest))))
  }

  function FieldsText(f: Fields, rest: string): string {
    f.a + ([f.sep1] + (f.b + ([f.sep2] + (f.year + ClockText(f.hour, f.minute, rest)))))
  }

  function MarkerText(m: Marker, rest: string): string {
    var letters := [m.half] + ([m.m] + rest);
    if m.space.Some? then [m.space.value] + letters else letters
  }

  function IosEndText(sender: string): string {
    [']'] + ([' '] + sender)
  }

  function AndroidEndText(sender: string): string {
    [' '] + (['-'] + ([' '] + sender))
  }

  /** The start of a line: the stamp and what follows it. */
  function Text(stamp: Stamp, sender: string): string {
    match stamp
    case IsoStamp(year, month, day, hour, minute, second) =>
      ['['] + (year + (['-'] + (month + (['-'] + (day +
        ClockText(hour, minute, [':'] + (second + IosEndText(sender))))))))
    case IosStamp(f, seconds, marker) =>
      var afterSeconds := if marker.Some? then MarkerText(marker.value, IosEndText(sender)) else IosEndText(sender);
      ['['] + FieldsText(f, if seconds.Some? then [':'] + (seconds.value + afterSeconds) else afterSeconds)
    case AndroidStamp(f, marker) =>
      FieldsText(f, if marker.Some? then MarkerText(marker.value, AndroidEndText(sender)) else AndroidEndText(sender))
  }

  /** The components of a stamp. */
  function DateOf(stamp: Stamp): LineDate
    requires StampOk(stamp)
  {
    match stamp
    case IsoStamp(year, month, day, _, _, _) => LineDate(ToInt(month), ToInt(day), ToInt(year), true)
    case IosStamp(f, _, _) => LineDate(ToInt(f.a), ToInt(f.b), ToInt(f.year), false)
    case AndroidStamp(f, _) => LineDate(ToInt(f.a), ToInt(f.b), ToInt(f.year), false)
  }

  // ---------- Printed stamps are read back ----------

  lemma RunThen(d: string, rest: string)
    requires AllDigits(d) && rest != [] && !IsDigit(rest[0])
    ensures DigitRun(d + rest) == |d| && (d + rest)[..|d|] == d && (d + rest)[|d|..] == rest
  {
    assert (d + rest)[..|d|] == d;
    RunIsForced(d + rest, |d|);
  }

  lemma OneThen(c: char, rest: string)
    ensures ([c] + rest)[0] == c && ([c] + rest)[1..] == rest
  {
  }

  lemma ReadClock(hour: string, minute: string, rest: string)
    requires Run(hour, 1, 2) && Run(minute, 2, 2) && rest != [] && !IsDigit(rest[0])
    ensures Consume(CLOCK, ClockText(hour, minute, rest)) == Some(([], rest))
  {
    var s1 := minute + rest;
    RunThen(minute, rest);
    assert Consume(Digits(2, 2, false, End), s1) == Some(([], rest));
    var s2 := [':'] + s1;
    OneThen(':', s1);
    assert Consume(OneOf(":", Digits(2, 2, false, End)), s2) == Some(([], rest));
    RunThen(hour, s2);
    var s3 := hour + s2;
    assert Consume(Digits(1, 2, false, OneOf(":", Digits(2, 2, false, End))), s3) == Some(([], rest));
    OneThen(' ', s3);
    OneThen(',', [' '] + s3);
  }

  lemma ReadRun(lo: nat, hi: nat, next: Pattern, d: string, s: string, captures: Captures, all: Captures, rest: string)
    requires Run(d, lo, hi) && s != [] && !IsDigit(s[0])
    requires Plain(next) && Consume(next, s) == Some((captures, rest)) && all == [d] + captures
    ensures Consume(Digits(lo, hi, true, next), d + s) == Some((all, rest))
  {
    RunThen(d, s);
  }

  lemma ReadOne(chars: string, next: Pattern, c: char, s: string, captures: Captures, rest: string)
    requires c in chars && Plain(next) && Consume(next, s) == Some((captures, rest))
    ensures Consume(OneOf(chars, next), [c] + s) == Some((captures, rest))
  {
    OneThen(c, s);
  }

  lemma ReadFields(f: Fields, rest: string)
    requires FieldsOk(f) && rest != [] && !IsDigit(rest[0])
    ensures Plain(DATE_AND_TIME) && Consume(DATE_AND_TIME, FieldsText(f, rest)) == Some(([f.a, f.b, f.year], rest))
  {
    PrefixesSeparated();
    ReadClock(f.hour, f.minute, rest);
    var s1 := ClockText(f.hour, f.minute, rest);
    var p1 := Digits(2, 4, true, CLOCK);
    ReadRun(2, 4, CLOCK, f.year, s1, [], [f.year], rest);
    var s2 := f.year + s1;
    var p2 := OneOf(SEPARATORS, p1);
    ReadOne(SEPARATORS, p1, f.sep2, s2, [f.year], rest);
    var s3 := [f.sep2] + s2;
    var p3 := Digits(1, 2, true, p2);
    ReadRun(1, 2, p2, f.b, s3, [f.year], [f.b, f.year], rest);
    var s4 := f.b + s3;
    var p4 := OneOf(SEPARATORS, p3);
    ReadOne(SEPARATORS, p3, f.sep1, s4, [f.b, f.year], rest);
    ReadRun(1, 2, p4, f.a, [f.sep1] + s4, [f.b, f.year], [f.a, f.b, f.year], rest);
  }

  lemma ReadIsoFields(year: string, month: string, day: string, hour: string, minute: string, rest: string)
    requires Run(year, 4, 4) && Run(month, 2, 2) && Run(day, 2, 2) && Run(hour, 1, 2) && Run(minute, 2, 2)
    requires rest != [] && !IsDigit(rest[0])
    ensures Plain(ISO_DATE_AND_TIME)
    ensures Consume(ISO_DATE_AND_TIME, year + (['-'] + (month + (['-'] + (day + ClockText(hour, minute, rest))))))
            == Some(([year, month, day], rest))
  {
    PrefixesSeparated();
    ReadClock(hour, minute, rest);
    var s1 := ClockText(hour, minute, rest);
    var p1 := Digits(2, 2, true, CLOCK);
    ReadRun(2, 2, CLOCK, day, s1, [], [day], rest);
    ReadOne("-", p1, '-', day + s1, [day], rest);
    var s2 := ['-'] + (day + s1);
    var p2 := OneOf("-", p1);
    ReadRun(2, 2, p2, month, s2, [day], [month, day], rest);
    var p3 := Digits(2, 2, true, p2);
    ReadOne("-", p3, '-', month + s2, [month, day], rest);
    ReadRun(4, 4, OneOf("-", p3), year, ['-'] + (month + s2), [month, day], [year, month, day], rest);
  }

  lemma ReadEnds(sender: string)
    requires SenderOk(sender)
    ensures Reads(IOS_END, IosEndText(sender)) == Some([])
    ensures Reads(ANDROID_END, AndroidEndText(sender)) == Some([])
  {
    assert Reads(Ahead(End), sender) == Some([]);
    OneThen(' ', sender);
    assert Reads(OneOf(" ", Ahead(End)), [' '] + sender) == Some([]);
    OneThen(']', [' '] + sender);
    OneThen('-', [' '] + sender);
    OneThen(' ', ['-'] + ([' '] + sender));
  }

  lemma ReadMarker(m: Marker, q: Pattern, rest: string)
    requires MarkerOk(m)
    ensures Reads(Then(MARKER, q), MarkerText(m, rest)) == Reads(q, rest)
  {
    var letters := OneOf("AaPp", OneOf("Mm", q));
    assert Then(OneOf("Mm", End), q) == OneOf("Mm", q);
    assert Then(OneOf("AaPp", OneOf("Mm", End)), q) == letters;
    assert Then(MARKER, q) == Maybe(OneOf(SPACES, End), letters);
    assert Then(OneOf(SPACES, End), letters) == OneOf(SPACES, letters);
    var s := [m.half] + ([m.m] + rest);
    OneThen(m.m, rest);
    OneThen(m.half, [m.m] + rest);
    assert Reads(OneOf("Mm", q), [m.m] + rest) == Reads(q, rest);
    assert Reads(letters, s) == Reads(q, rest);
    if m.space.Some? {
      OneThen(m.space.value, s);
      assert Starts(OneOf(SPACES, End), m.space.value);
    } else {
      assert !Starts(OneOf(SPACES, End), m.half);
    }
  }

  function FormatOf(stamp: Stamp): (i: nat)
    ensures i < 4
  {
    match stamp
    case IsoStamp(_, _, _, _, _, _) => 0
    case IosStamp(_, _, _) => 1
    case AndroidStamp(_, marker) => if marker.Some? then 2 else 3
  }

  function CapturesOf(stamp: Stamp): Captures {
    match stamp
    case IsoStamp(year, month, day, _, _, _) => [year, month, day]
    case IosStamp(f, _, _) => [f.a, f.b, f.year]
    case AndroidStamp(f, _) => [f.a, f.b, f.year]
  }

  lemma ReadOptionalMarker(marker: Option<Marker>, end: string)
    requires (marker.Some? ==> MarkerOk(marker.value)) && Reads(IOS_END, end) == Some([]) && end != [] && end[0] == ']'
    ensures var s := if marker.Some? then MarkerText(marker.value, end) else end;
            && s != [] && !IsDigit(s[0]) && s[0] != ':'
            && Reads(Maybe(MARKER, IOS_END), s) == Some([])
  {
    if marker.Some? {
      ReadMarker(marker.value, IOS_END, end);
      var s := MarkerText(marker.value, end);
      assert Starts(MARKER, s[0]);
    } else {
      assert !Starts(MARKER, ']');
    }
  }

  lemma ReadOptionalSeconds(seconds: Option<string>, s: string)
    requires (seconds.Some? ==> Run(seconds.value, 2, 2)) && s != [] && !IsDigit(s[0]) && s[0] != ':'
    requires Reads(Maybe(MARKER, IOS_END), s) == Some([])
    ensures var s' := if seconds.Some? then [':'] + (seconds.value + s) else s;
            s' != [] && !IsDigit(s'[0]) && Reads(Maybe(SECONDS, Maybe(MARKER, IOS_END)), s') == Some([])
  {
    var p := Maybe(MARKER, IOS_END);
    if seconds.Some? {
      RunThen(seconds.value, s);
      OneThen(':', seconds.value + s);
      assert Then(SECONDS, p) == OneOf(":", Digits(2, 2, false, p));
      assert Reads(Digits(2, 2, false, p), seconds.value + s) == Some([]);
      assert Starts(SECONDS, ':');
    } else {
      assert !Starts(SECONDS, s[0]);
    }
  }

  lemma ReadIos(f: Fields, seconds: Option<string>, marker: Option<Marker>, sender: string)
    requires StampOk(IosStamp(f, seconds, marker)) && SenderOk(sender)
    ensures Reads(IOS, Text(IosStamp(f, seconds, marker), sender)) == Some([f.a, f.b, f.year])
  {
    PrefixesSeparated();
    ReadEnds(sender);
    var end := IosEndText(sender);
    ReadOptionalMarker(marker, end);
    var s1 := if marker.Some? then MarkerText(marker.value, end) else end;
    ReadOptionalSeconds(seconds, s1);
    var s2 := if seconds.Some? then [':'] + (seconds.value + s1) else s1;
    ReadFields(f, s2);
    ReadsThen(DATE_AND_TIME, Maybe(SECONDS, Maybe(MARKER, IOS_END)), FieldsText(f, s2));
    OneThen('[', FieldsText(f, s2));
    assert [f.a, f.b, f.year] + [] == [f.a, f.b, f.year];
  }

  lemma ReadAndroid(f: Fields, marker: Option<Marker>, sender: string)
    requires StampOk(AndroidStamp(f, marker)) && SenderOk(sender)
    ensures Reads(Format(FormatOf(AndroidStamp(f, marker))), Text(AndroidStamp(f, marker), sender))
            == Some([f.a, f.b, f.year])
  {
    PrefixesSeparated();
    ReadEnds(sender);
    var end := AndroidEndText(sender);
    var s := if marker.Some? then MarkerText(marker.value, end) else end;
    if marker.Some? { ReadMarker(marker.value, ANDROID_END, end); }
    ReadFields(f, s);
    ReadsThen(DATE_AND_TIME, if marker.Some? then Then(MARKER, ANDROID_END) else ANDROID_END, FieldsText(f, s));
    assert [f.a, f.b, f.year] + [] == [f.a, f.b, f.year];
  }

  lemma ReadIso(stamp: Stamp, sender: string)
    requires stamp.IsoStamp? && StampOk(stamp) && SenderOk(sender)
    ensures Reads(IOS_ISO, Text(stamp, sender)) == Some(CapturesOf(stamp))
  {
    PrefixesSeparated();
    ReadEnds(sender);
    var end := IosEndText(sender);
    var s1 := [':'] + (stamp.second + end);
    RunThen(stamp.second, end);
    OneThen(':', stamp.second + end);
    assert Then(SECONDS, IOS_END) == OneOf(":", Digits(2, 2, false, IOS_END));
    assert Reads(Digits(2, 2, false, IOS_END), stamp.second + end) == Some([]);
    assert Reads(Then(SECONDS, IOS_END), s1) == Some([]);
    ReadIsoFields(stamp.year, stamp.month, stamp.day, stamp.hour, stamp.minute, s1);
    var s2 := stamp.year + (['-'] + (stamp.month + (['-'] + (stamp.day + ClockText(stamp.hour, stamp.minute, s1)))));
    ReadsThen(ISO_DATE_AND_TIME, Then(SECONDS, IOS_END), s2);
    OneThen('[', s2);
    assert CapturesOf(stamp) + [] == CapturesOf(stamp);
  }

  /** Printing a stamp in any format before a sender and matching the line gives the stamp's
      components back. */
  lemma PrintedStampIsRead(stamp: Stamp, sender: string)
    requires StampOk(stamp) && SenderOk(sender)
    ensures MatchLine(Text(stamp, sender)) == Some(DateOf(stamp))
    ensures MatchLine(Text(stamp, sender)) ==
            match stamp {
              case IsoStamp(year, month, day, _, _, _) => Some(LineDate(ToInt(month), ToInt(day), ToInt(year), true))
              case IosStamp(f, _, _) => Some(LineDate(ToInt(f.a), ToInt(f.b), ToInt(f.year), false))
              case AndroidStamp(f, _) => Some(LineDate(ToInt(f.a), ToInt(f.b), ToInt(f.year), false))
            }
  {
    match stamp {
      case IsoStamp(_, _, _, _, _, _) => ReadIso(stamp, sender);
      case IosStamp(f, seconds, marker) => ReadIos(f, seconds, marker, sender);
      case AndroidStamp(f, marker) => ReadAndroid(f, marker, sender);
    }
    ReadsSound(Format(FormatOf(stamp)), Text(stamp, sender));
    MatchLineIs(Text(stamp, sender), FormatOf(stamp), CapturesOf(stamp));
  }
}
