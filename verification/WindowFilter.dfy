/** The filter over a conversation: lines, the vote on the whole file, the window walk. */
module WindowFilter {
  import opened Wrappers
  import opened Dates
  import opened Stamps
  import opened MessageFilter
  import opened Lines
  import opened Window

  /** The filter's answer; the subtraction of the window from the anchor may leave the calendar. */
  datatype FilterResult = Filtered(text: string, recognised: bool) | DateOverflow

  function DayOf(d: Option<Date>): Option<int>
    requires d.Some? ==> IsDate(d.value)
  {
    if d == None then None else Some(Ordinal(d.value))
  }

  /** The day of a line under a fixed order. */
  function LineDay(order: Order): string -> Option<int> {
    line => DayOf(Resolve(MatchLine(line), order))
  }

  /** The order the whole file votes for. */
  function OrderOf(lines: seq<string>): Order {
    InferDateOrder(LineDates(lines))
  }

  predicate Recognised(lines: seq<string>) {
    exists i :: 0 <= i < |lines| && MatchLine(lines[i]).Some?
  }

  predicate Undated(lines: seq<string>) {
    forall i :: 0 <= i < |lines| ==> FileDates(lines)[i] == None
  }

  /** A file is undated exactly if there is no latest day, and a dated file is recognised. */
  lemma LatestIfDated(lines: seq<string>)
    ensures Latest(DaysOf(lines, LineDay(OrderOf(lines)))) == None <==> Undated(lines)
    ensures !Undated(lines) ==> Recognised(lines)
  {
    var day := LineDay(OrderOf(lines));
    forall i | 0 <= i < |lines|
      ensures day(lines[i]) == None <==> FileDates(lines)[i] == None
      ensures FileDates(lines)[i].Some? ==> MatchLine(lines[i]).Some?
    {
    }
  }

  method Recognise(lineDates: seq<Option<LineDate>>) returns (recognised: bool)
    ensures recognised <==> exists i :: 0 <= i < |lineDates| && lineDates[i].Some?
  {
    for i := 0 to |lineDates|
      invariant forall k :: 0 <= k < i ==> lineDates[k] == None
    {
      if lineDates[i].Some? { return true; }
    }
    return false;
  }

  /** The day numbers of a file's dates. */
  ghost function DayNumbers(dates: seq<Option<Date>>): (days: seq<Option<int>>)
    ensures |days| == |dates|
  {
    seq(|dates|, i requires 0 <= i < |dates| =>
      if dates[i].Some? && IsDate(dates[i].value) then Some(Ordinal(dates[i].value)) else None)
  }

  lemma LineDaysAreDayNumbers(lines: seq<string>)
    ensures DaysOf(lines, LineDay(OrderOf(lines))) == DayNumbers(FileDates(lines))
  {
    hide MatchLine, InferDateOrder;
    var days, numbers := DaysOf(lines, LineDay(OrderOf(lines))), DayNumbers(FileDates(lines));
    forall i | 0 <= i < |lines| ensures days[i] == numbers[i] {
    }
  }

  /** A text without a date comes back unchanged. From another the lines `kept` are kept, which stand at the
      places `from` and follow a line dated inside the window, or none at all; the window ends on the anchor
      or the latest date, and it is an error if its beginning is outside the calendar. */
  ghost predicate Answers(conversation: string, lines: seq<string>, days: seq<Option<int>>, window: int,
                          anchor: Option<int>, r: FilterResult, kept: seq<string>, from: seq<nat>)
    requires |lines| == |days|
  {
    if forall i :: 0 <= i < |days| ==> days[i] == None then r.Filtered? && r.text == conversation
    else
      Latest(days).Some? &&
      var last := if anchor.Some? then anchor.value else Latest(days).value;
      && (r == DateOverflow <==> !(1 <= last - window <= 3652059))
      && (r.Filtered? ==> KeepsWhatFollows(lines, days, last - window, last, kept, from) && r.text == Join(kept))
  }

  /** The filter of a text whose lines have these days. */
  method FilterDays(conversation: string, lines: seq<string>, days: seq<Option<int>>, window: int,
                    anchor: Option<int>, recognised: bool)
    returns (r: FilterResult, ghost kept: seq<string>, ghost from: seq<nat>)
    requires |lines| == |days|
    ensures var filtered := FilterItems(lines, days, window, anchor);
            && (r == DateOverflow <==> filtered == None)
            && (r.Filtered? ==> r.text == if Latest(days) == None then conversation else Join(filtered.value))
            && (r.Filtered? ==> r.recognised == (recognised || Latest(days).Some?))
    ensures Answers(conversation, lines, days, window, anchor, r, kept, from)
  {
    hide KeepsWhatFollows, Join, Selected;
    kept, from := [], [];
    if Latest(days) == None {
      return Filtered(conversation, recognised), kept, from;
    }
    var walked;
    walked, from := WalkWindow(lines, days, window, anchor);
    if walked == None {
      return DateOverflow, kept, from;
    }
    kept := walked.value;
    return Filtered(Join(walked.value), true), kept, from;
  }

  /** `filter_messages_within_window`. */
  method FilterMessagesWithinWindow(conversation: string, window: int, anchor: Option<Date>)
    returns (r: FilterResult, ghost kept: seq<string>, ghost from: seq<nat>)
    requires anchor.Some? ==> IsDate(anchor.value)
    ensures var lines := SplitLines(conversation);
            var filtered := FilterBy(lines, LineDay(OrderOf(lines)), window, DayOf(anchor));
            && (r == DateOverflow <==> filtered == None)
            && (r.Filtered? ==> r.text == if Undated(lines) then conversation else Join(filtered.value))
    ensures var lines := SplitLines(conversation);
            r.Filtered? ==> (r.recognised <==> exists i :: 0 <= i < |lines| && MatchLine(lines[i]).Some?)
    ensures var lines := SplitLines(conversation);
            Answers(conversation, lines, DayNumbers(FileDates(lines)), window,
                    if anchor.Some? then Some(Ordinal(anchor.value)) else None, r, kept, from)
  {
    hide MatchLine, SplitLines, InferDateOrder, Join, FilterItems, Answers, Undated, DayNumbers;
    var lines := SplitLines(conversation);
    var lineDates := LineDates(lines);
    var recognised := Recognise(lineDates);
    LatestIfDated(lines);
    LineDaysAreDayNumbers(lines);
    r, kept, from := FilterDays(conversation, lines, DaysOf(lines, LineDay(InferDateOrder(lineDates))), window,
                                DayOf(anchor), recognised);
  }

  // ---------- The calendar's end ----------

  lemma LateYears(d: Date)
    requires IsDate(d) && d.year >= 100
    ensures 36160 <= Ordinal(d) <= MAX_ORDINAL
  {
    OrdinalOrder(Date(100, 1, 1), d);
    OrdinalOrder(d, Date(9999, 12, 31));
    MonthsOfYear(9999);
    assert DaysBeforeMonth(9999, 13) == DaysBeforeMonth(9999, 12) + 31;
  }

  lemma LineDaysAreLate(order: Order, line: string)
    ensures var day := LineDay(order)(line); day.Some? ==> 36160 <= day.value <= MAX_ORDINAL
  {
    var d := Resolve(MatchLine(line), order);
    if d.Some? { LateYears(d.value); }
  }

  lemma LateDaysStayInside(lines: seq<string>, day: string -> Option<int>, window: int)
    requires 0 <= window <= 36159
    requires forall i :: 0 <= i < |lines| && day(lines[i]).Some? ==> 36160 <= day(lines[i]).value <= MAX_ORDINAL
    ensures FilterBy(lines, day, window, None).Some?
  {
  }

  /** Without an explicit anchor, no window from 0 to 36159 days leaves the calendar: a stamp never
      reads as a year before 100. */
  lemma DefaultAnchorNeverOverflows(lines: seq<string>, order: Order, window: int)
    requires 0 <= window <= 36159
    ensures FilterBy(lines, LineDay(order), window, None).Some?
  {
    var day := LineDay(order);
    forall i | 0 <= i < |lines|
      ensures day(lines[i]).Some? ==> 36160 <= day(lines[i]).value <= MAX_ORDINAL
    {
      LineDaysAreLate(order, lines[i]);
    }
    LateDaysStayInside(lines, day, window);
  }
}
