/** Filtering items a second time, their days perhaps read in another way. */
module FilterTwice {
  import opened Wrappers
  import opened Dates
  import opened MessageFilter
  import opened Window

  /** Item `i` survives the first filter. */
  predicate Survives(days: seq<Option<int>>, window: int, i: nat)
    requires i < |days|
  {
    Latest(days) == None || Keeps(days, i, Latest(days).value - window, Latest(days).value)
  }

  /** Item `j` survives, and on the second reading every surviving item is in the window that ends on its
      day. */
  ghost predicate Spans(days: seq<Option<int>>, again: seq<Option<int>>, window: int, j: nat)
    requires j < |days| == |again|
  {
    && Survives(days, window, j) && again[j].Some?
    && MIN_ORDINAL <= again[j].value - window <= MAX_ORDINAL
    && forall k :: 0 <= k < |days| && Survives(days, window, k) && again[k].Some? ==>
         again[j].value - window < again[k].value <= again[j].value
  }

  /** On the second reading no surviving item has a day, or one window spans them all. */
  ghost predicate StayTogether(days: seq<Option<int>>, again: seq<Option<int>>, window: int)
    requires |days| == |again|
  {
    || (forall i :: 0 <= i < |days| && Survives(days, window, i) ==> again[i] == None)
    || (exists j :: 0 <= j < |days| && Spans(days, again, window, j))
  }

  /** The surviving items stand at the places `from`. */
  predicate Stand<T(==)>(items: seq<T>, days: seq<Option<int>>, window: int, kept: seq<T>, from: seq<nat>)
    requires |items| == |days|
  {
    && |from| == |kept|
    && (forall k :: 0 <= k < |from| ==>
          from[k] < |items| && items[from[k]] == kept[k] && Survives(days, window, from[k]))
    && (forall i :: 0 <= i < |items| && Survives(days, window, i) ==> i in from)
  }

  lemma KeptStand<T>(items: seq<T>, days: seq<Option<int>>, window: int) returns (from: seq<nat>)
    requires |items| == |days| && FilterItems(items, days, window, None).Some?
    ensures Stand(items, days, window, FilterItems(items, days, window, None).value, from)
  {
    if Latest(days) == None {
      from := seq(|items|, i => i);
      forall i | 0 <= i < |items| ensures i in from { assert from[i] == i; }
    } else {
      var last := Latest(days).value;
      from := SelectedIsSubsequence(items, days, |items|, last - window, last);
    }
  }

  /** What a window would have to span. */
  lemma TogetherIff<T>(items: seq<T>, days: seq<Option<int>>, again: seq<Option<int>>, window: int,
                       kept: seq<T>, from: seq<nat>, keptAgain: seq<Option<int>>)
    requires |items| == |days| == |again| && Stand(items, days, window, kept, from)
    requires |keptAgain| == |kept| && forall k :: 0 <= k < |kept| ==> keptAgain[k] == again[from[k]]
    ensures FilterItems(kept, keptAgain, window, None) == Some(kept) <==> StayTogether(days, again, window)
  {
    hide Survives, FilterItems;
    KeepsAllIff(kept, keptAgain, window);
    if Latest(keptAgain).Some? {
      var k :| 0 <= k < |keptAgain| && keptAgain[k] == Latest(keptAgain);
      if FilterItems(kept, keptAgain, window, None) == Some(kept) {
        assert Spans(days, again, window, from[k]);
      }
      if StayTogether(days, again, window) {
        assert again[from[k]].Some?;
        var j :| 0 <= j < |days| && Spans(days, again, window, j);
        var l :| 0 <= l < |from| && from[l] == j;
        assert keptAgain[l] == Latest(keptAgain);
      }
    } else {
      forall i | 0 <= i < |items| && Survives(days, window, i) ensures again[i] == None {
        var k :| 0 <= k < |from| && from[k] == i;
        assert keptAgain[k] == None;
      }
    }
  }

  /** Filtering the kept items again, on another reading of their days, changes nothing if and only if the
      surviving items stay together on that reading. */
  lemma FilteredAgainIff<T>(items: seq<T>, day: T -> Option<int>, again: T -> Option<int>, window: int)
    requires FilterBy(items, day, window, None).Some?
    ensures var kept := FilterBy(items, day, window, None).value;
            FilterBy(kept, again, window, None) == Some(kept) <==>
            StayTogether(DaysOf(items, day), DaysOf(items, again), window)
  {
    var days, kept := DaysOf(items, day), FilterBy(items, day, window, None).value;
    var from := KeptStand(items, days, window);
    TogetherIff(items, days, DaysOf(items, again), window, kept, from, DaysOf(kept, again));
  }

  // ---------- Votes ----------

  /** How many of the first `n` items survive and vote this way. */
  function SurvivingVotes<T>(items: seq<T>, days: seq<Option<int>>, window: int, n: nat, p: T -> bool): nat
    requires n <= |items| == |days|
  {
    if n == 0 then 0
    else
      SurvivingVotes(items, days, window, n - 1, p)
      + if Survives(days, window, n - 1) && p(items[n - 1]) then 1 else 0
  }

  lemma CountOneMore<T>(s: seq<T>, x: T, p: T -> bool)
    ensures Count(s + [x], p) == Count(s, p) + if p(x) then 1 else 0
  {
    assert (s + [x])[..|s|] == s;
  }

  lemma {:induction false} VotesOfSelected<T>(items: seq<T>, days: seq<Option<int>>, window: int, n: nat, p: T -> bool)
    requires n <= |items| == |days| && Latest(days).Some?
    ensures var last := Latest(days).value;
            Count(Selected(items, days, n, last - window, last), p) == SurvivingVotes(items, days, window, n, p)
  {
    if n > 0 {
      var last := Latest(days).value;
      var before := Selected(items, days, n - 1, last - window, last);
      VotesOfSelected(items, days, window, n - 1, p);
      CountOneMore(before, items[n - 1], p);
      assert before + [] == before;
    }
  }

  lemma {:induction false} VotesOfAll<T>(items: seq<T>, days: seq<Option<int>>, window: int, n: nat, p: T -> bool)
    requires n <= |items| == |days| && Latest(days) == None
    ensures SurvivingVotes(items, days, window, n, p) == Count(items[..n], p)
  {
    if n > 0 {
      VotesOfAll(items, days, window, n - 1, p);
      CountOneMore(items[..n - 1], items[n - 1], p);
      assert items[..n - 1] + [items[n - 1]] == items[..n];
    }
  }

  /** The kept items have the votes that the survivors have among the others. */
  lemma KeptVotes<T>(items: seq<T>, days: seq<Option<int>>, window: int, p: T -> bool)
    requires |items| == |days| && FilterItems(items, days, window, None).Some?
    ensures Count(FilterItems(items, days, window, None).value, p) == SurvivingVotes(items, days, window, |items|, p)
  {
    if Latest(days) == None {
      VotesOfAll(items, days, window, |items|, p);
      assert items[..|items|] == items;
    } else {
      VotesOfSelected(items, days, window, |items|, p);
    }
  }
}
