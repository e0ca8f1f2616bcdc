/** Filtering a conversation twice can change it: the second vote sees fewer lines. */
module FilterLimits {
  import opened Wrappers
  import opened Dates
  import opened Stamps
  import opened Printing
  import opened MessageFilter
  import opened Window
  import opened FilterTwice
  import opened WindowFilter

  /** The lines that the filter keeps, its order voted on the lines given. */
  function FilterVoted(lines: seq<string>, window: int): Option<seq<string>> {
    FilterBy(lines, LineDay(OrderOf(lines)), window, None)
  }

  // ---------- When a second filter changes nothing ----------

  /** How a line votes. */
  function LineVotes(p: Option<LineDate> -> bool): string -> bool {
    line => p(MatchLine(line))
  }

  lemma {:induction false} CountLines(lines: seq<string>, p: Option<LineDate> -> bool)
    ensures Count(LineDates(lines), p) == Count(lines, LineVotes(p))
  {
    hide MatchLine;
    if lines != [] {
      var init := lines[..|lines| - 1];
      CountLines(init, p);
      assert LineDates(lines)[..|init|] == LineDates(init);
      assert LineDates(lines)[|init|] == MatchLine(lines[|init|]);
    }
  }

  /** The order for which the lines that survive a first filter vote. */
  function Revote(lines: seq<string>, window: int): Order {
    var days := DaysOf(lines, LineDay(OrderOf(lines)));
    if SurvivingVotes(lines, days, window, |lines|, LineVotes(VotesDmy)) >
       SurvivingVotes(lines, days, window, |lines|, LineVotes(VotesMdy))
    then DMY else MDY
  }

  /** The kept lines, read by themselves, vote as they do among the others. */
  lemma KeptVote(lines: seq<string>, window: int)
    requires FilterVoted(lines, window).Some?
    ensures OrderOf(FilterVoted(lines, window).value) == Revote(lines, window)
  {
    hide MatchLine, FilterItems, Count;
    var days, kept := DaysOf(lines, LineDay(OrderOf(lines))), FilterVoted(lines, window).value;
    KeptVotes(lines, days, window, LineVotes(VotesDmy));
    KeptVotes(lines, days, window, LineVotes(VotesMdy));
    CountLines(kept, VotesDmy);
    CountLines(kept, VotesMdy);
  }

  /** Filtering a conversation a second time, with the vote taken anew, changes nothing if and only if the
      lines that survive the first filter vote as all lines did, or, read in the order they vote for, they
      stay together in one window. Every part of the condition is about the lines of the original. */
  lemma FilteringAgainIff(lines: seq<string>, window: int)
    requires FilterVoted(lines, window).Some?
    ensures var kept, order := FilterVoted(lines, window).value, Revote(lines, window);
            FilterVoted(kept, window) == Some(kept) <==>
            || order == OrderOf(lines)
            || StayTogether(DaysOf(lines, LineDay(OrderOf(lines))), DaysOf(lines, LineDay(order)), window)
  {
    var order := OrderOf(lines);
    KeptVote(lines, window);
    FilteredAgainIff(lines, LineDay(order), LineDay(Revote(lines, window)), window);
    if Revote(lines, window) == order { FilterIsIdempotent(lines, LineDay(order), window, None); }
  }

  // ---------- An example ----------

  /** A line of a day-first export. */
  function DmyLine(day: nat, month: nat): Line
    requires IsDate(Date(2026, month, day))
  {
    var stamp := AndroidStamp(Fields(TwoDigits(day), '/', TwoDigits(month), '/', "26", "09", "00"), None);
    Line(stamp, "A: b", Date(2026, month, day))
  }

  lemma DmyLineReads(day: nat, month: nat)
    requires IsDate(Date(2026, month, day))
    ensures var line := DmyLine(day, month);
            && SenderOk(line.sender) && Writes(line.stamp, line.date, DMY)
            && MatchLine(Text(line.stamp, line.sender)) == Some(LineDate(day, month, 26, false))
  {
    TwoDigitsValue(day);
    TwoDigitsValue(month);
    TwoDigitsValue(26);
    assert TwoDigits(26) == "26";
    PrintedStampIsRead(DmyLine(day, month).stamp, "A: b");
  }

  function DmyText(day: nat, month: nat): string
    requires IsDate(Date(2026, month, day))
  {
    Text(DmyLine(day, month).stamp, DmyLine(day, month).sender)
  }

  /** How the line reads under an order. */
  lemma DmyLineDay(day: nat, month: nat, order: Order)
    requires IsDate(Date(2026, month, day))
    ensures LineDay(order)(DmyText(day, month)) == DayOf(Resolve(Some(LineDate(day, month, 26, false)), order))
  {
    DmyLineReads(day, month);
    assert MatchLine(DmyText(day, month)) == Some(LineDate(day, month, 26, false));
  }

  /** What the example's lines read as. */
  lemma DaysOf2026()
    ensures DayOf(Resolve(Some(LineDate(13, 1, 26, false)), DMY)) == Some(739629)
    ensures DayOf(Resolve(Some(LineDate(1, 3, 26, false)), DMY)) == Some(739676)
    ensures DayOf(Resolve(Some(LineDate(2, 3, 26, false)), DMY)) == Some(739677)
    ensures DayOf(Resolve(Some(LineDate(1, 3, 26, false)), MDY)) == Some(739619)
    ensures DayOf(Resolve(Some(LineDate(2, 3, 26, false)), MDY)) == Some(739650)
  {
    assert DaysBeforeYear(2026) == 739616;
    assert DaysBeforeMonth(2026, 2) == 31;
    assert DaysBeforeMonth(2026, 3) == 59;
  }

  /** A day-first export of 13 January, 1 March and 2 March. */
  function Example(): seq<Line> {
    [DmyLine(13, 1), DmyLine(1, 3), DmyLine(2, 3)]
  }

  lemma ExportOf(a: Line, b: Line, c: Line)
    requires Export([a], DMY) && Export([b], DMY) && Export([c], DMY)
    ensures Export([a, b, c], DMY) && Export([b, c], DMY)
  {
    assert [a][0] == a && [b][0] == b && [c][0] == c;
  }

  lemma DmyLineExports(day: nat, month: nat)
    requires IsDate(Date(2026, month, day))
    ensures Export([DmyLine(day, month)], DMY)
    ensures Decisive(DmyLine(day, month)) <==> day > 12
  {
    DmyLineReads(day, month);
  }

  /** A day above 12 in the first line decides the order of three lines. */
  lemma FirstLineDecides(a: Line, b: Line, c: Line)
    requires Export([a, b, c], DMY) && Export([b, c], DMY)
    requires Decisive(a) && !Decisive(b) && !Decisive(c)
    ensures OrderOf(TextOf([a, b, c])) == DMY && OrderOf(TextOf([b, c])) == MDY
  {
    hide Export, MatchLine, Text, InferDateOrder;
    var file := [a, b, c];
    assert Decisive(file[0]);
    DmyOrderIff(file);
    DmyOrderIff([b, c]);
  }

  lemma ExampleExports()
    ensures Export(Example(), DMY) && Export(Example()[1..], DMY)
  {
    DmyLineExports(13, 1);
    DmyLineExports(1, 3);
    DmyLineExports(2, 3);
    ExportOf(DmyLine(13, 1), DmyLine(1, 3), DmyLine(2, 3));
  }

  lemma ExampleText()
    ensures TextOf(Example()) == [DmyText(13, 1), DmyText(1, 3), DmyText(2, 3)]
    ensures TextOf(Example())[1..] == [DmyText(1, 3), DmyText(2, 3)]
  {
    ExampleExports();
    TextOfThree(DmyLine(13, 1), DmyLine(1, 3), DmyLine(2, 3));
  }

  lemma ExampleOrders()
    ensures OrderOf(TextOf(Example())) == DMY
    ensures OrderOf(TextOf(Example())[1..]) == MDY
  {
    DmyLineExports(13, 1);
    DmyLineExports(1, 3);
    DmyLineExports(2, 3);
    var a, b, c := DmyLine(13, 1), DmyLine(1, 3), DmyLine(2, 3);
    ExportOf(a, b, c);
    FirstLineDecides(a, b, c);
    TextOfThree(a, b, c);
  }

  lemma ThreeDays(lines: seq<string>, days: seq<Option<int>>)
    requires |lines| == 3 && days == [Some(739629), Some(739676), Some(739677)]
    ensures FilterItems(lines, days, 7, None) == Some(lines[1..])
  {
    assert Latest(days) == Some(739677);
    assert Selected(lines, days, 1, 739670, 739677) == [];
    assert Selected(lines, days, 2, 739670, 739677) == [lines[1]];
    assert Selected(lines, days, 3, 739670, 739677) == [lines[1]] + [lines[2]];
    assert lines[1..] == [lines[1]] + [lines[2]];
    assert FilterItems(lines, days, 7, None) == Some(Selected(lines, days, |lines|, 739670, 739677));
  }

  lemma TwoDays(lines: seq<string>, days: seq<Option<int>>)
    requires |lines| == 2 && days == [Some(739619), Some(739650)]
    ensures FilterItems(lines, days, 7, None) == Some(lines[1..])
  {
    assert Latest(days) == Some(739650);
    assert Selected(lines, days, 1, 739643, 739650) == [];
    assert Selected(lines, days, 2, 739643, 739650) == [lines[1]];
    assert lines[1..] == [lines[1]];
    assert FilterItems(lines, days, 7, None) == Some(Selected(lines, days, |lines|, 739643, 739650));
  }

  lemma TextOfThree(a: Line, b: Line, c: Line)
    requires Export([a, b, c], DMY)
    ensures var lines := TextOf([a, b, c]);
            && lines == [Text(a.stamp, a.sender), Text(b.stamp, b.sender), Text(c.stamp, c.sender)]
            && lines[1..] == [Text(b.stamp, b.sender), Text(c.stamp, c.sender)]
            && TextOf([b, c]) == lines[1..]
  {
    assert [a, b, c][1..] == [b, c];
  }

  lemma ThreeLineDays(a: string, b: string, c: string, day: string -> Option<int>)
    ensures DaysOf([a, b, c], day) == [day(a), day(b), day(c)]
    ensures DaysOf([b, c], day) == [day(b), day(c)]
  {
  }

  lemma ExampleDays()
    ensures var lines := TextOf(Example());
            && DaysOf(lines, LineDay(DMY)) == [Some(739629), Some(739676), Some(739677)]
            && DaysOf(lines[1..], LineDay(MDY)) == [Some(739619), Some(739650)]
  {
    var a, b, c := DmyText(13, 1), DmyText(1, 3), DmyText(2, 3);
    ThreeLineDays(a, b, c, LineDay(DMY));
    ThreeLineDays(a, b, c, LineDay(MDY));
    DmyLineDay(13, 1, DMY);
    DmyLineDay(1, 3, DMY);
    DmyLineDay(2, 3, DMY);
    DmyLineDay(1, 3, MDY);
    DmyLineDay(2, 3, MDY);
    DaysOf2026();
    ExampleText();
  }

  /** A week's window of the example drops 13 January, the line that told the order; the second time
      the file reads month first, and the window drops 1 March too. */
  lemma SecondFilterMayDropMore()
    ensures var lines := TextOf(Example());
            && FilterVoted(lines, 7) == Some(lines[1..])
            && FilterVoted(lines[1..], 7) == Some(lines[2..])
  {
    var lines := TextOf(Example());
    ExampleOrders();
    ExampleDays();
    ThreeDays(lines, DaysOf(lines, LineDay(DMY)));
    TwoDays(lines[1..], DaysOf(lines[1..], LineDay(MDY)));
    assert lines[1..][1..] == lines[2..];
  }
}
