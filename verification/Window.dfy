/** The window walk: which lines a date window keeps. */
module Window {
  import opened Wrappers
  import opened Dates

  /** The day of the nearest dated line at or before line `i`. */
  function Nearest(days: seq<Option<int>>, i: nat): Option<int>
    requires i < |days|
  {
    if days[i].Some? then days[i] else if i == 0 then None else Nearest(days, i - 1)
  }

  predicate Within(day: Option<int>, cutoff: int, last: int) {
    day == None || cutoff < day.value <= last
  }

  /** A line is kept exactly when its nearest dated line is inside (cutoff, last], or it has none. */
  predicate Keeps(days: seq<Option<int>>, i: nat, cutoff: int, last: int)
    requires i < |days|
  {
    Within(Nearest(days, i), cutoff, last)
  }

  /** The kept ones among the first `n` items, in order. */
  function Selected<T>(items: seq<T>, days: seq<Option<int>>, n: nat, cutoff: int, last: int): seq<T>
    requires n <= |items| == |days|
  {
    if n == 0 then []
    else
      Selected(items, days, n - 1, cutoff, last)
      + if Keeps(days, n - 1, cutoff, last) then [items[n - 1]] else []
  }

  /** The latest day. */
  function Latest(days: seq<Option<int>>): (d: Option<int>)
    ensures d == None <==> forall i :: 0 <= i < |days| ==> days[i] == None
    ensures d.Some? ==> d in days
    ensures d.Some? ==> forall i :: 0 <= i < |days| && days[i].Some? ==> days[i].value <= d.value
  {
    if days == [] then None
    else
      var before, end := Latest(days[..|days| - 1]), days[|days| - 1];
      if end == None then before
      else if before.Some? && end.value <= before.value then before
      else end
  }

  /** The last day of the window. */
  function LastDay(days: seq<Option<int>>, anchor: Option<int>): int
    requires Latest(days).Some?
  {
    if anchor.Some? then anchor.value else Latest(days).value
  }

  /** What a filter keeps: everything if nothing is dated, and nothing at all when the subtraction of
      the window leaves the calendar. */
  function FilterItems<T>(items: seq<T>, days: seq<Option<int>>, window: int, anchor: Option<int>): Option<seq<T>>
    requires |days| == |items|
  {
    if Latest(days) == None then Some(items)
    else
      var last := LastDay(days, anchor);
      if MIN_ORDINAL <= last - window <= MAX_ORDINAL
      then Some(Selected(items, days, |items|, last - window, last))
      else None
  }

  /** The nearest dated line at or before line `i` is inside (cutoff, last], or no line up to it is dated. */
  ghost predicate FollowsInside(days: seq<Option<int>>, i: nat, cutoff: int, last: int)
    requires i < |days|
  {
    || (forall j :: 0 <= j <= i ==> days[j] == None)
    || (exists j :: 0 <= j <= i && days[j].Some? && cutoff < days[j].value <= last
                    && forall k :: j < k <= i ==> days[k] == None)
  }

  /** `kept` are the lines at the places `from`, which are in order exactly those that follow a dated line
      inside the window, or none. */
  ghost predicate KeepsWhatFollows<T>(lines: seq<T>, days: seq<Option<int>>, cutoff: int, last: int, kept: seq<T>,
                                      from: seq<nat>)
    requires |lines| == |days|
  {
    && |from| == |kept| && (forall k :: 0 <= k < |from| ==> from[k] < |lines| && lines[from[k]] == kept[k])
    && (forall k, l :: 0 <= k < l < |from| ==> from[k] < from[l])
    && (forall i :: 0 <= i < |lines| ==> (i in from <==> FollowsInside(days, i, cutoff, last)))
  }

  lemma {:induction false} KeepsMeaning(days: seq<Option<int>>, i: nat, cutoff: int, last: int)
    requires i < |days|
    ensures Keeps(days, i, cutoff, last) <==> FollowsInside(days, i, cutoff, last)
  {
    if days[i] == None && i > 0 {
      KeepsMeaning(days, i - 1, cutoff, last);
      if j :| 0 <= j <= i - 1 && days[j].Some? && cutoff < days[j].value <= last
              && forall k :: j < k <= i - 1 ==> days[k] == None {
        assert forall k :: j < k <= i ==> days[k] == None;
      }
    }
  }

  lemma SelectedFollows<T>(lines: seq<T>, days: seq<Option<int>>, cutoff: int, last: int) returns (from: seq<nat>)
    requires |lines| == |days|
    ensures KeepsWhatFollows(lines, days, cutoff, last, Selected(lines, days, |lines|, cutoff, last), from)
  {
    from := SelectedIsSubsequence(lines, days, |lines|, cutoff, last);
    forall i | 0 <= i < |lines| ensures i in from <==> FollowsInside(days, i, cutoff, last) {
      KeepsMeaning(days, i, cutoff, last);
    }
  }

  /** The walk: a dated line decides, an undated line follows the decision before it, and the lines
      before the first dated one are kept. */
  method Walk(lines: seq<string>, parsed: seq<Option<int>>, cutoff: int, last: int)
    returns (kept: seq<string>, ghost from: seq<nat>)
    requires |lines| == |parsed|
    ensures kept == Selected(lines, parsed, |lines|, cutoff, last)
    ensures KeepsWhatFollows(lines, parsed, cutoff, last, kept, from)
  {
    kept := [];
    var keepCurrent := true;
    for i := 0 to |lines|
      invariant kept == Selected(lines, parsed, i, cutoff, last)
      invariant keepCurrent == (i == 0 || Keeps(parsed, i - 1, cutoff, last))
    {
      if parsed[i].Some? {
        keepCurrent := cutoff < parsed[i].value <= last;
      }
      if keepCurrent {
        kept := kept + [lines[i]];
      }
    }
    from := SelectedFollows(lines, parsed, cutoff, last);
  }

  /** The window's bounds and the walk between them; none when a bound leaves the calendar. */
  method WalkWindow(lines: seq<string>, parsed: seq<Option<int>>, window: int, anchor: Option<int>)
    returns (kept: Option<seq<string>>, ghost from: seq<nat>)
    requires |lines| == |parsed| && Latest(parsed).Some?
    ensures kept == FilterItems(lines, parsed, window, anchor)
    ensures var last := if anchor.Some? then anchor.value else Latest(parsed).value;
            && (kept.Some? <==> 1 <= last - window <= 3652059)
            && (kept.Some? ==> KeepsWhatFollows(lines, parsed, last - window, last, kept.value, from))
  {
    from := [];
    var last := if anchor.Some? then anchor.value else Latest(parsed).value;
    var cutoff := last - window;
    if cutoff < MIN_ORDINAL || cutoff > MAX_ORDINAL {
      return None, from;
    }
    var walked;
    walked, from := Walk(lines, parsed, cutoff, last);
    return Some(walked), from;
  }

  // ---------- What the walk keeps ----------

  /** The kept lines are a subsequence of the lines: they come from increasing positions, and these are
      exactly the positions that are kept. */
  lemma {:induction false} SelectedIsSubsequence<T>(items: seq<T>, days: seq<Option<int>>, n: nat, cutoff: int,
                                                    last: int)
    returns (from: seq<nat>)
    requires n <= |items| == |days|
    ensures |from| == |Selected(items, days, n, cutoff, last)|
    ensures forall k :: 0 <= k < |from| ==>
              from[k] < n && items[from[k]] == Selected(items, days, n, cutoff, last)[k]
    ensures forall k, l :: 0 <= k < l < |from| ==> from[k] < from[l]
    ensures forall i :: 0 <= i < n ==> (i in from <==> Keeps(days, i, cutoff, last))
  {
    hide Keeps;
    if n == 0 {
      from := [];
    } else {
      var before := SelectedIsSubsequence(items, days, n - 1, cutoff, last);
      from := if Keeps(days, n - 1, cutoff, last) then before + [n - 1] else before;
      forall i | 0 <= i < n ensures i in from <==> Keeps(days, i, cutoff, last) {
        assert i in from <==> i in before || (i == n - 1 && Keeps(days, i, cutoff, last));
      }
    }
  }

  /** `few` stands in `many` at the increasing positions `from`. */
  ghost predicate Embeds<T>(few: seq<T>, many: seq<T>, from: seq<nat>) {
    && |from| == |few|
    && (forall k :: 0 <= k < |from| ==> from[k] < |many| && many[from[k]] == few[k])
    && (forall k, l :: 0 <= k < l < |from| ==> from[k] < from[l])
  }

  lemma EmbedsMore<T>(few: seq<T>, many: seq<T>, from: seq<nat>, item: T)
    requires Embeds(few, many, from)
    ensures Embeds(few, many + [item], from)
    ensures Embeds(few + [item], many + [item], from + [|many|])
  {
  }

  /** With the last day fixed, a larger window keeps every line that a smaller one keeps. */
  lemma {:induction false} GrowingWindowKeepsMore<T>(
    items: seq<T>, days: seq<Option<int>>, n: nat, last: int, window: int, larger: int)
    returns (from: seq<nat>)
    requires n <= |items| == |days| && window <= larger
    ensures Embeds(Selected(items, days, n, last - window, last), Selected(items, days, n, last - larger, last), from)
  {
    if n == 0 {
      from := [];
    } else {
      from := GrowingWindowKeepsMore(items, days, n - 1, last, window, larger);
      var many := Selected(items, days, n - 1, last - larger, last);
      EmbedsMore(Selected(items, days, n - 1, last - window, last), many, from, items[n - 1]);
      if Keeps(days, n - 1, last - window, last) {
        assert Keeps(days, n - 1, last - larger, last);
        from := from + [|many|];
      }
    }
  }

  // ---------- Filtering twice ----------

  /** The days of the kept lines. */
  function KeptDays(days: seq<Option<int>>, n: nat, cutoff: int, last: int): seq<Option<int>>
    requires n <= |days|
  {
    Selected(days, days, n, cutoff, last)
  }

  lemma {:induction false} AsManyDays<T>(items: seq<T>, days: seq<Option<int>>, n: nat, cutoff: int, last: int)
    requires n <= |items| == |days|
    ensures |KeptDays(days, n, cutoff, last)| == |Selected(items, days, n, cutoff, last)|
  {
    if n > 0 { AsManyDays(items, days, n - 1, cutoff, last); }
  }

  lemma {:induction false} NearestOfPrefix(days: seq<Option<int>>, more: seq<Option<int>>, k: nat)
    requires k < |days|
    ensures Nearest(days + more, k) == Nearest(days, k)
  {
    if k > 0 { NearestOfPrefix(days, more, k - 1); }
  }

  /** The nearest date of the last kept line, if line `n - 1` is kept, is the nearest date it had. */
  lemma {:induction false} LastKept(days: seq<Option<int>>, n: nat, cutoff: int, last: int)
    requires 0 < n <= |days| && Keeps(days, n - 1, cutoff, last)
    ensures var kept := KeptDays(days, n, cutoff, last);
            kept != [] && Nearest(kept, |kept| - 1) == Nearest(days, n - 1)
  {
    var before := KeptDays(days, n - 1, cutoff, last);
    if days[n - 1] == None && n > 1 {
      LastKept(days, n - 1, cutoff, last);
      NearestOfPrefix(before, [None], |before| - 1);
    }
  }

  /** Every kept line is kept again. */
  lemma {:induction false} KeptAgain(days: seq<Option<int>>, n: nat, cutoff: int, last: int, k: nat)
    requires n <= |days| && k < |KeptDays(days, n, cutoff, last)|
    ensures Keeps(KeptDays(days, n, cutoff, last), k, cutoff, last)
  {
    var kept := KeptDays(days, n, cutoff, last);
    var before := KeptDays(days, n - 1, cutoff, last);
    if k < |before| {
      KeptAgain(days, n - 1, cutoff, last, k);
      NearestOfPrefix(before, kept[|before|..], k);
      assert kept == before + kept[|before|..];
    } else {
      LastKept(days, n, cutoff, last);
    }
  }

  lemma {:induction false} AllKept<T>(items: seq<T>, days: seq<Option<int>>, n: nat, cutoff: int, last: int)
    requires n <= |items| == |days|
    requires forall k :: 0 <= k < n ==> Keeps(days, k, cutoff, last)
    ensures Selected(items, days, n, cutoff, last) == items[..n]
  {
    if n > 0 { AllKept(items, days, n - 1, cutoff, last); }
  }

  lemma {:induction false} DatedKept(days: seq<Option<int>>, n: nat, cutoff: int, last: int, i: nat)
    requires i < n <= |days| && Keeps(days, i, cutoff, last)
    ensures days[i] in KeptDays(days, n, cutoff, last)
  {
    if i < n - 1 { DatedKept(days, n - 1, cutoff, last, i); }
  }

  /** The dated lines that a window keeps lie inside it. */
  lemma {:induction false} KeptInside(days: seq<Option<int>>, n: nat, cutoff: int, last: int)
    requires n <= |days|
    ensures forall d :: d in KeptDays(days, n, cutoff, last) ==> Within(d, cutoff, last)
  {
    if n > 0 { KeptInside(days, n - 1, cutoff, last); }
  }

  /** The last day of a window survives the filter: the window is the same the second time, unless
      nothing dated is left. */
  lemma SameLastDay(days: seq<Option<int>>, window: int, anchor: Option<int>)
    requires Latest(days).Some?
    ensures var last := LastDay(days, anchor);
            var kept := KeptDays(days, |days|, last - window, last);
            Latest(kept) == None || LastDay(kept, anchor) == last
  {
    if anchor == None {
      var last := LastDay(days, anchor);
      var kept := KeptDays(days, |days|, last - window, last);
      KeptInside(days, |days|, last - window, last);
      if Latest(kept).Some? {
        var i :| 0 <= i < |days| && days[i] == Latest(days);
        assert Within(Latest(kept), last - window, last);
        DatedKept(days, |days|, last - window, last, i);
        assert Latest(days) in kept;
      }
    }
  }

  /** Filtering the kept lines again, their days unchanged, keeps them all, whatever the window and
      the anchor. */
  lemma FilteringTwice<T>(items: seq<T>, days: seq<Option<int>>, window: int, anchor: Option<int>)
    requires |days| == |items|
    requires Latest(days).Some? && FilterItems(items, days, window, anchor).Some?
    ensures var kept := FilterItems(items, days, window, anchor).value;
            var last := LastDay(days, anchor);
            var keptDays := KeptDays(days, |days|, last - window, last);
            |keptDays| == |kept| && FilterItems(kept, keptDays, window, anchor) == Some(kept)
  {
    var kept := FilterItems(items, days, window, anchor).value;
    var last := LastDay(days, anchor);
    var cutoff := last - window;
    var keptDays := KeptDays(days, |days|, cutoff, last);
    AsManyDays(items, days, |days|, cutoff, last);
    SameLastDay(days, window, anchor);
    forall k | 0 <= k < |keptDays| ensures Keeps(keptDays, k, cutoff, last) {
      KeptAgain(days, |days|, cutoff, last, k);
    }
    AllKept(kept, keptDays, |kept|, cutoff, last);
    assert kept[..|kept|] == kept;
  }

  lemma {:induction false} NearestInside(days: seq<Option<int>>, k: nat, cutoff: int, last: int)
    requires k < |days| && forall i :: 0 <= i <= k ==> Within(days[i], cutoff, last)
    ensures Keeps(days, k, cutoff, last)
  {
    if days[k] == None && k > 0 { NearestInside(days, k - 1, cutoff, last); }
  }

  lemma {:induction false} SelectedLength<T>(items: seq<T>, days: seq<Option<int>>, n: nat, cutoff: int, last: int)
    requires n <= |items| == |days|
    ensures |Selected(items, days, n, cutoff, last)| <= n
    ensures |Selected(items, days, n, cutoff, last)| == n ==> forall k :: 0 <= k < n ==> Keeps(days, k, cutoff, last)
  {
    if n > 0 { SelectedLength(items, days, n - 1, cutoff, last); }
  }

  /** A filter without an anchor keeps every line if and only if nothing is dated, or the window stays in
      the calendar and every date is less than the window away from the latest. */
  lemma KeepsAllIff<T>(items: seq<T>, days: seq<Option<int>>, window: int)
    requires |days| == |items|
    ensures FilterItems(items, days, window, None) == Some(items) <==>
            || Latest(days) == None
            || (&& MIN_ORDINAL <= Latest(days).value - window <= MAX_ORDINAL
                && forall k :: 0 <= k < |days| && days[k].Some? ==> Latest(days).value - days[k].value < window)
  {
    if Latest(days).Some? {
      var last := Latest(days).value;
      var cutoff := last - window;
      SelectedLength(items, days, |items|, cutoff, last);
      if forall k :: 0 <= k < |days| ==> Within(days[k], cutoff, last) {
        forall k | 0 <= k < |days| ensures Keeps(days, k, cutoff, last) { NearestInside(days, k, cutoff, last); }
        AllKept(items, days, |items|, cutoff, last);
        assert items[..|items|] == items;
      } else {
        var k :| 0 <= k < |days| && !Within(days[k], cutoff, last);
        assert !Keeps(days, k, cutoff, last);
      }
    }
  }

  /** The days of items, given how an item's day is read. */
  function DaysOf<T>(items: seq<T>, day: T -> Option<int>): (days: seq<Option<int>>)
    ensures |days| == |items| && forall i :: 0 <= i < |items| ==> days[i] == day(items[i])
  {
    seq(|items|, i requires 0 <= i < |items| => day(items[i]))
  }

  function FilterBy<T>(items: seq<T>, day: T -> Option<int>, window: int, anchor: Option<int>): Option<seq<T>> {
    FilterItems(items, DaysOf(items, day), window, anchor)
  }

  lemma {:induction false} DaysOfSelected<T>(items: seq<T>, day: T -> Option<int>, n: nat, cutoff: int, last: int)
    requires n <= |items|
    ensures var days := DaysOf(items, day);
            DaysOf(Selected(items, days, n, cutoff, last), day) == KeptDays(days, n, cutoff, last)
  {
    if n > 0 { DaysOfSelected(items, day, n - 1, cutoff, last); }
  }

  /** However days are read, as long as they are read the same way, filtering the kept lines again
      changes nothing, whatever the window and the anchor. */
  lemma FilterIsIdempotent<T>(items: seq<T>, day: T -> Option<int>, window: int, anchor: Option<int>)
    ensures var kept := FilterBy(items, day, window, anchor);
            kept.Some? ==> FilterBy(kept.value, day, window, anchor) == kept
  {
    var days, kept := DaysOf(items, day), FilterBy(items, day, window, anchor);
    if kept.Some? && Latest(days).Some? {
      var last := LastDay(days, anchor);
      FilteringTwice(items, days, window, anchor);
      DaysOfSelected(items, day, |items|, last - window, last);
    }
  }
}
