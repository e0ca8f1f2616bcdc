/** Day/month order by majority vote, and resolving stamps to dates. */
module MessageFilter {
  import opened Wrappers
  import opened Dates
  import opened Stamps
  import opened Printing

  datatype Order = MDY | DMY

  // ---------- Vote and resolution ----------

  function NormaliseYear(year: int): int {
    if year >= 100 then year else if year < 69 then 2000 + year else 1900 + year
  }

  predicate VotesDmy(ld: Option<LineDate>) {
    ld.Some? && !ld.value.iso && ld.value.a > 12
  }

  predicate VotesMdy(ld: Option<LineDate>) {
    ld.Some? && !ld.value.iso && ld.value.b > 12
  }

  function Count<T>(s: seq<T>, p: T -> bool): nat {
    if s == [] then 0 else Count(s[..|s| - 1], p) + if p(s[|s| - 1]) then 1 else 0
  }

  function InferDateOrder(lds: seq<Option<LineDate>>): Order {
    if Count(lds, VotesDmy) > Count(lds, VotesMdy) then DMY else MDY
  }

  /** `_resolve`: none for an undated line and for components that form no date. */
  function Resolve(ld: Option<LineDate>, order: Order): (d: Option<Date>)
    ensures d.Some? ==> IsDate(d.value)
  {
    if ld == None then None
    else
      var (month, day) := if ld.value.iso || order == MDY then (ld.value.a, ld.value.b) else (ld.value.b, ld.value.a);
      var d := Date(NormaliseYear(ld.value.year), month, day);
      if IsDate(d) then Some(d) else None
  }

  function LineDates(lines: seq<string>): (lds: seq<Option<LineDate>>)
    ensures |lds| == |lines|
    ensures forall i :: 0 <= i < |lines| ==> lds[i] == MatchLine(lines[i])
  {
    seq(|lines|, i requires 0 <= i < |lines| => MatchLine(lines[i]))
  }

  /** The dates of a whole file: one order for all its lines. */
  function FileDates(lines: seq<string>): (dates: seq<Option<Date>>)
    ensures |dates| == |lines|
    ensures forall i :: 0 <= i < |lines| ==> dates[i] == Resolve(MatchLine(lines[i]), InferDateOrder(LineDates(lines)))
  {
    var order := InferDateOrder(LineDates(lines));
    seq(|lines|, i requires 0 <= i < |lines| => Resolve(MatchLine(lines[i]), order))
  }

  // ---------- Files of printed dates ----------

  /** The stamp writes the date: ISO stamps in their own order, others with the given order, and the
      year in any way that means it. */
  predicate Writes(stamp: Stamp, d: Date, order: Order) {
    && StampOk(stamp)
    && match stamp
       case IsoStamp(year, month, day, _, _, _) =>
         NormaliseYear(ToInt(year)) == d.year && ToInt(month) == d.month && ToInt(day) == d.day
       case IosStamp(f, _, _) => WritesFields(f, d, order)
       case AndroidStamp(f, _) => WritesFields(f, d, order)
  }

  predicate WritesFields(f: Fields, d: Date, order: Order)
    requires FieldsOk(f)
  {
    && NormaliseYear(ToInt(f.year)) == d.year
    && (match order
        case MDY => ToInt(f.a) == d.month && ToInt(f.b) == d.day
        case DMY => ToInt(f.a) == d.day && ToInt(f.b) == d.month)
  }

  /** One line of an export: a stamp and a sender, writing date `d`. */
  datatype Line = Line(stamp: Stamp, sender: string, date: Date)

  predicate Export(file: seq<Line>, order: Order) {
    forall i :: 0 <= i < |file| ==>
      IsDate(file[i].date) && SenderOk(file[i].sender)
      && StampOk(file[i].stamp) && Writes(file[i].stamp, file[i].date, order)
  }

  function TextOf(file: seq<Line>): (lines: seq<string>)
    ensures |lines| == |file|
    ensures forall i :: 0 <= i < |file| ==> lines[i] == Text(file[i].stamp, file[i].sender)
  {
    seq(|file|, i requires 0 <= i < |file| => Text(file[i].stamp, file[i].sender))
  }

  lemma {:induction false} NoneCounted<T>(s: seq<T>, p: T -> bool)
    requires forall i :: 0 <= i < |s| ==> !p(s[i])
    ensures Count(s, p) == 0
  {
    if s != [] { NoneCounted(s[..|s| - 1], p); }
  }

  lemma {:induction false} OneCounted<T>(s: seq<T>, p: T -> bool, i: nat)
    requires i < |s| && p(s[i])
    ensures Count(s, p) >= 1
  {
    if i < |s| - 1 { OneCounted(s[..|s| - 1], p, i); }
  }

  lemma ExportLinesMatch(file: seq<Line>, order: Order, i: nat)
    requires Export(file, order) && i < |file|
    ensures MatchLine(TextOf(file)[i]) == Some(DateOf(file[i].stamp))
  {
    PrintedStampIsRead(file[i].stamp, file[i].sender);
  }

  /** Line `i` of the file as text gets its date back. */
  predicate ResolvesBack(file: seq<Line>, i: nat)
    requires i < |file|
  {
    FileDates(TextOf(file))[i] == Some(file[i].date)
  }

  /** A line of an MDY export never votes for DMY, and reads as its date in its own order. */
  lemma MdyLine(line: Line)
    requires IsDate(line.date) && Writes(line.stamp, line.date, MDY)
    ensures !VotesDmy(Some(DateOf(line.stamp))) && Resolve(Some(DateOf(line.stamp)), MDY) == Some(line.date)
  {
  }

  /** Any list of dates written as MDY stamps, ISO lines mixed in, resolves back exactly. */
  lemma MdyExportResolves(file: seq<Line>)
    requires Export(file, MDY)
    ensures forall i :: 0 <= i < |file| ==> ResolvesBack(file, i)
  {
    hide MatchLine, Writes, Resolve, VotesDmy, DateOf;
    var lds := LineDates(TextOf(file));
    forall i | 0 <= i < |file|
      ensures MatchLine(TextOf(file)[i]) == Some(DateOf(file[i].stamp)) && !VotesDmy(lds[i])
      ensures Resolve(MatchLine(TextOf(file)[i]), MDY) == Some(file[i].date)
    {
      ExportLinesMatch(file, MDY, i);
      MdyLine(file[i]);
    }
    NoneCounted(lds, VotesDmy);
  }

  /** A date that an ambiguous line of a DMY file leaves unambiguous or unaffected. */
  predicate ReadsEitherWay(line: Line) {
    line.stamp.IsoStamp? || line.date.day == line.date.month
  }

  predicate Decisive(line: Line) {
    !line.stamp.IsoStamp? && line.date.day > 12
  }

  /** A line of a DMY export never votes for MDY, votes for DMY if it is decisive, and reads as its date in
      its own order. */
  lemma DmyLine(line: Line)
    requires IsDate(line.date) && Writes(line.stamp, line.date, DMY)
    ensures var ld := Some(DateOf(line.stamp));
            !VotesMdy(ld) && (VotesDmy(ld) <==> Decisive(line)) && Resolve(ld, DMY) == Some(line.date)
  {
  }

  /** A DMY file is read as DMY exactly if some line is decisive. */
  lemma DmyOrderIff(file: seq<Line>)
    requires Export(file, DMY)
    ensures InferDateOrder(LineDates(TextOf(file))) == DMY <==> exists i :: 0 <= i < |file| && Decisive(file[i])
  {
    hide MatchLine, Writes, Resolve, VotesDmy, VotesMdy, DateOf;
    var lds := LineDates(TextOf(file));
    forall i | 0 <= i < |file|
      ensures lds[i] == Some(DateOf(file[i].stamp)) && !VotesMdy(lds[i])
      ensures VotesDmy(lds[i]) <==> Decisive(file[i])
    {
      ExportLinesMatch(file, DMY, i);
      DmyLine(file[i]);
    }
    NoneCounted(lds, VotesMdy);
    if i :| 0 <= i < |file| && Decisive(file[i]) {
      OneCounted(lds, VotesDmy, i);
    } else {
      NoneCounted(lds, VotesDmy);
    }
  }

  lemma DmyLineResolves(file: seq<Line>, i: nat)
    requires Export(file, DMY) && i < |file|
    ensures InferDateOrder(LineDates(TextOf(file))) == DMY ==> ResolvesBack(file, i)
    ensures InferDateOrder(LineDates(TextOf(file))) == MDY && !Decisive(file[i]) ==>
              (ResolvesBack(file, i) <==> ReadsEitherWay(file[i]))
  {
    hide MatchLine, Writes, Resolve, DateOf, InferDateOrder;
    ExportLinesMatch(file, DMY, i);
    DmyLine(file[i]);
    if !Decisive(file[i]) { MdyReadingOfDmy(file[i]); }
  }

  /** Written as DMY, a file resolves back exactly if and only if some non-ISO line has a day above 12
      or every non-ISO line has its day equal to its month. */
  lemma DmyExportResolvesIff(file: seq<Line>)
    requires Export(file, DMY)
    ensures (forall i :: 0 <= i < |file| ==> ResolvesBack(file, i)) <==>
            (|| (exists i :: 0 <= i < |file| && Decisive(file[i]))
             || (forall i :: 0 <= i < |file| ==> ReadsEitherWay(file[i])))
  {
    DmyOrderIff(file);
    forall i | 0 <= i < |file|
      ensures InferDateOrder(LineDates(TextOf(file))) == DMY ==> ResolvesBack(file, i)
      ensures InferDateOrder(LineDates(TextOf(file))) == MDY && !Decisive(file[i]) ==>
                (ResolvesBack(file, i) <==> ReadsEitherWay(file[i]))
    {
      DmyLineResolves(file, i);
    }
  }

  /** An undecisive line of a DMY file, read as MDY, has its day and month exchanged. */
  lemma MdyReadingOfDmy(line: Line)
    requires IsDate(line.date) && Writes(line.stamp, line.date, DMY) && !Decisive(line)
    ensures Resolve(Some(DateOf(line.stamp)), MDY) == Some(line.date) <==> ReadsEitherWay(line)
  {
  }

  // ---------- Foreign lines ----------

  lemma {:induction false} CountSplit(lds: seq<Option<LineDate>>, p: Option<LineDate> -> bool, genuine: seq<bool>)
    requires |genuine| == |lds| && !p(None)
    ensures Count(lds, p) == Count(Kept(lds, genuine, true), p) + Count(Kept(lds, genuine, false), p)
  {
    if lds != [] {
      var n := |lds| - 1;
      CountSplit(lds[..n], p, genuine[..n]);
      assert Kept(lds, genuine, true)[..n] == Kept(lds[..n], genuine[..n], true);
      assert Kept(lds, genuine, false)[..n] == Kept(lds[..n], genuine[..n], false);
    }
  }

  /** The lines marked `which`, the others blanked. */
  function Kept(lds: seq<Option<LineDate>>, genuine: seq<bool>, which: bool): (kept: seq<Option<LineDate>>)
    requires |genuine| == |lds|
    ensures |kept| == |lds|
  {
    seq(|lds|, i requires 0 <= i < |lds| => if genuine[i] == which then lds[i] else None)
  }

  /** Foreign lines, wherever they stand in an MDY file, leave every genuine date as it was if and
      only if their DMY votes do not outnumber all decisive MDY lines or every genuine line reads the
      same either way. */
  lemma ForeignLinesHarmlessIff(lines: seq<string>, genuine: seq<bool>, file: seq<Line>)
    requires |genuine| == |lines| == |file|
    requires Export(file, MDY)
    requires forall i :: 0 <= i < |lines| && genuine[i] ==> lines[i] == TextOf(file)[i]
    ensures var lds := LineDates(lines);
            (forall i :: 0 <= i < |lines| && genuine[i] ==> FileDates(lines)[i] == Some(file[i].date)) <==>
            (|| Count(Kept(lds, genuine, false), VotesDmy)
                <= Count(Kept(lds, genuine, true), VotesMdy) + Count(Kept(lds, genuine, false), VotesMdy)
             || forall i :: 0 <= i < |lines| && genuine[i] ==> ReadsEitherWay(file[i]))
  {
    hide MatchLine, Writes, Resolve, DateOf;
    var lds := LineDates(lines);
    CountSplit(lds, VotesDmy, genuine);
    CountSplit(lds, VotesMdy, genuine);
    var ours := Kept(lds, genuine, true);
    forall i | 0 <= i < |lines| && genuine[i] ensures MatchLine(lines[i]) == Some(DateOf(file[i].stamp)) {
      ExportLinesMatch(file, MDY, i);
    }
    forall i | 0 <= i < |lines| ensures !VotesDmy(ours[i]) {
      if genuine[i] { MdyLine(file[i]); }
    }
    NoneCounted(ours, VotesDmy);
    forall i | 0 <= i < |lines| && genuine[i]
      ensures FileDates(lines)[i] == Some(file[i].date) <==> InferDateOrder(lds) == MDY || ReadsEitherWay(file[i])
    {
      DmyReadingOfMdy(file[i]);
    }
  }

  lemma DmyReadingOfMdy(line: Line)
    requires IsDate(line.date) && Writes(line.stamp, line.date, MDY)
    ensures Resolve(Some(DateOf(line.stamp)), MDY) == Some(line.date)
    ensures Resolve(Some(DateOf(line.stamp)), DMY) == Some(line.date) <==> ReadsEitherWay(line)
  {
  }

  // ---------- Which dates can be written ----------

  function TwoDigits(n: nat): string
    requires n < 100
  {
    [('0' as int + n / 10) as char, ('0' as int + n % 10) as char]
  }

  lemma TwoDigitsValue(n: nat)
    requires n < 100
    ensures Run(TwoDigits(n), 2, 2) && ToInt(TwoDigits(n)) == n
  {
    var s := TwoDigits(n);
    assert s[..1] == [s[0]] && s[..1][..0] == [];
    assert ToInt(s[..1]) == n / 10;
  }

  lemma FourDigitsValue(n: nat)
    requires n < 10000
    ensures Run(TwoDigits(n / 100) + TwoDigits(n % 100), 4, 4)
    ensures ToInt(TwoDigits(n / 100) + TwoDigits(n % 100)) == n
  {
    var a, b := TwoDigits(n / 100), TwoDigits(n % 100);
    TwoDigitsValue(n / 100);
    var s := a + b;
    assert s[..3] == a + [b[0]] && s[..3][..2] == a;
    assert ToInt(s[..3]) == ToInt(a) * 10 + n % 100 / 10;
  }

  /** The year is written in full, or, from 1969 to 2068, as what is left of it after the century. */
  lemma WrittenYear(stamp: Stamp, d: Date, order: Order)
    requires Writes(stamp, d, order)
    ensures var written := ToInt(if stamp.IsoStamp? then stamp.year else stamp.fields.year);
            d.year >= 100 && (written == d.year || (1969 <= d.year <= 2068 && written == d.year % 100))
  {
  }

  /** A stamp can write a date exactly if its year is 100 or later; a year from 1969 to 2068 can be
      written with two digits. */
  lemma WritableDates(d: Date, order: Order)
    requires IsDate(d)
    ensures (exists stamp :: Writes(stamp, d, order)) <==> d.year >= 100
    ensures 1969 <= d.year <= 2068 ==>
              exists stamp :: Writes(stamp, d, order) && stamp.AndroidStamp? && |stamp.fields.year| == 2
  {
    forall stamp | Writes(stamp, d, order) ensures d.year >= 100 { WrittenYear(stamp, d, order); }
    TwoDigitsValue(d.month);
    TwoDigitsValue(d.day);
    var (a, b) := if order == MDY then (d.month, d.day) else (d.day, d.month);
    if d.year >= 100 {
      FourDigitsValue(d.year);
      var stamp := AndroidStamp(Fields(TwoDigits(a), '/', TwoDigits(b), '/',
                                       TwoDigits(d.year / 100) + TwoDigits(d.year % 100), "09", "00"), None);
      assert Writes(stamp, d, order);
    }
    if 1969 <= d.year <= 2068 {
      TwoDigitsValue(d.year % 100);
      var fields := Fields(TwoDigits(a), '/', TwoDigits(b), '/', TwoDigits(d.year % 100), "09", "00");
      var stamp := AndroidStamp(fields, None);
      assert Writes(stamp, d, order);
    }
  }
}
