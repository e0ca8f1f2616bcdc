/** The progress stream composed with everything that is committed to a run: what a browser is told,
    over any number of connections. */
module ProgressTheorems {
  import opened Wrappers
  import opened Dispatch
  import opened RunViews
  import opened RunStories
  import opened StorySteps
  import opened Progress

  // ---------- Changes ----------

  lemma {:induction false} ChangesEndWithLast<T>(s: seq<T>)
    requires s != []
    ensures Changes(s) != [] && Changes(s)[|Changes(s)| - 1] == s[|s| - 1]
    decreases |s|
  {
    if |s| > 1 && s[|s| - 1] == s[|s| - 2] {
      ChangesEndWithLast(s[..|s| - 1]);
    }
  }

  /** No status is reported twice in a row. */
  lemma {:induction false} ChangesNeverRepeat<T>(s: seq<T>, i: nat)
    requires i + 1 < |Changes(s)|
    ensures Changes(s)[i] != Changes(s)[i + 1]
    decreases |s|
  {
    if |s| > 1 {
      var init := s[..|s| - 1];
      ChangesEndWithLast(init);
      if i + 1 < |Changes(init)| { ChangesNeverRepeat(init, i); }
    }
  }

  /** Replaying a stream's step events gives exactly the last polled view. */
  lemma ReplayGivesLastPoll(polls: nat -> Poll, k: nat, events: seq<SseEvent>, n: nat)
    requires k > 0 && StepEvents(events, n) == Changes(PolledStep(polls, k, n))
    ensures var shown := StepEvents(events, n);
            shown != [] && shown[|shown| - 1] == StepOf(polls(k - 1).rows, n)
  {
    ChangesEndWithLast(PolledStep(polls, k, n));
  }

  // ---------- Connections ----------

  /** The two reads of one poll: which committed state each of them saw. */
  datatype Read = Read(rowsAt: nat, statusAt: nat)

  /** One connection: its polls, what their reads saw, and the events that reached the browser. */
  datatype Connection = Connection(polls: nat -> Poll, looks: seq<Read>, received: seq<SseEvent>)

  /** The polls read the history in commit order, and what reached the browser is a prefix of what they
      tell: all of it, unless the connection broke off. */
  ghost predicate Watched(history: seq<View>, c: Connection) {
    && (forall i :: 0 <= i < |c.looks| ==>
          && c.looks[i].rowsAt <= c.looks[i].statusAt < |history|
          && c.polls(i) == Poll(history[c.looks[i].rowsAt].steps, Some(history[c.looks[i].statusAt].status)))
    && (forall i, j :: 0 <= i < j < |c.looks| ==> c.looks[i].statusAt <= c.looks[j].rowsAt)
    && exists events :: Replica(c.polls, |c.looks|, events) && c.received <= events
  }

  function FirstLook(c: Connection, upto: nat): nat {
    if c.looks == [] then upto else c.looks[0].rowsAt
  }

  /** Connections one after the other, the rows of all their polls read at or before commit `upto`. */
  ghost predicate InOrder(history: seq<View>, connections: seq<Connection>, upto: nat)
    decreases |connections|
  {
    connections == [] ||
    (var last := connections[|connections| - 1];
     && Watched(history, last)
     && (forall i :: 0 <= i < |last.looks| ==> last.looks[i].rowsAt <= upto)
     && InOrder(history, connections[..|connections| - 1], FirstLook(last, upto)))
  }

  /** The statuses that the browser receives for step `n` over all connections. */
  function Received(connections: seq<Connection>, n: nat): seq<StepStatus>
    decreases |connections|
  {
    if connections == [] then []
    else
      Received(connections[..|connections| - 1], n) + StepEvents(connections[|connections| - 1].received, n)
  }

  /** Statuses in an order in which none goes back, ending no later than `bound`. */
  predicate Forward(statuses: seq<StepStatus>, bound: StepStatus) {
    && (forall i, j :: 0 <= i < j < |statuses| ==> StepAdvances(statuses[i], statuses[j]))
    && (forall i :: 0 <= i < |statuses| ==> StepAdvances(statuses[i], bound))
  }

  lemma {:induction false} ChangesStayForward(s: seq<StepStatus>, bound: StepStatus)
    requires Forward(s, bound)
    ensures Forward(Changes(s), bound)
    ensures s != [] ==> forall i :: 0 <= i < |Changes(s)| ==> StepAdvances(s[0], Changes(s)[i])
    decreases |s|
  {
    if |s| > 1 {
      var init := s[..|s| - 1];
      ChangesStayForward(init, s[|s| - 1]);
      ChangesStayForward(init, bound);
      ChangesEndWithLast(init);
    }
  }

  lemma ForwardPrefix(a: seq<StepStatus>, b: seq<StepStatus>, bound: StepStatus)
    requires a <= b && Forward(b, bound)
    ensures Forward(a, bound)
  {
    assert forall i :: 0 <= i < |a| ==> a[i] == b[i];
  }

  lemma ForwardConcat(a: seq<StepStatus>, b: seq<StepStatus>, middle: StepStatus, bound: StepStatus)
    requires Forward(a, middle) && Forward(b, bound) && StepAdvances(middle, bound)
    requires forall i :: 0 <= i < |b| ==> StepAdvances(middle, b[i])
    ensures Forward(a + b, bound)
  {
    var c := a + b;
    forall i, j | 0 <= i < j < |c| ensures StepAdvances(c[i], c[j]) {
      if i < |a| <= j { assert StepAdvances(a[i], middle) && StepAdvances(middle, b[j - |a|]); }
    }
  }

  lemma {:induction false} StepEventsPrefix(a: seq<SseEvent>, b: seq<SseEvent>, n: nat)
    requires a <= b
    ensures StepEvents(a, n) <= StepEvents(b, n)
    decreases |b|
  {
    if a != b {
      assert a <= b[..|b| - 1];
      StepEventsPrefix(a, b[..|b| - 1], n);
    }
  }

  /** The statuses that a connection's polls see for a step. */
  lemma PolledForward(history: seq<View>, c: Connection, upto: nat, n: nat)
    requires OnlyForward(history, n) && Watched(history, c) && upto < |history|
    requires forall i :: 0 <= i < |c.looks| ==> c.looks[i].rowsAt <= upto
    ensures var s := PolledStep(c.polls, |c.looks|, n);
            && Forward(s, StepOf(history[upto].steps, n))
            && (c.looks != [] ==> s[0] == StepOf(history[c.looks[0].rowsAt].steps, n))
  {
    hide StepOf, StepAdvances, Replica;
    var s := PolledStep(c.polls, |c.looks|, n);
    assert forall i :: 0 <= i < |s| ==> s[i] == StepOf(history[c.looks[i].rowsAt].steps, n);
  }

  lemma ReceivedIsTold(history: seq<View>, c: Connection, n: nat)
    requires Watched(history, c) && 1 <= n <= 7
    ensures StepEvents(c.received, n) <= Changes(PolledStep(c.polls, |c.looks|, n))
  {
    var events :| Replica(c.polls, |c.looks|, events) && c.received <= events;
    StepEventsPrefix(c.received, events, n);
  }

  /** What one connection tells of a step never goes back, nor beyond the state it ended with. */
  lemma WatchedForward(history: seq<View>, c: Connection, upto: nat, n: nat)
    requires OnlyForward(history, n) && 1 <= n <= 7 && Watched(history, c) && upto < |history|
    requires forall i :: 0 <= i < |c.looks| ==> c.looks[i].rowsAt <= upto
    ensures Forward(StepEvents(c.received, n), StepOf(history[upto].steps, n))
  {
    var s, bound := PolledStep(c.polls, |c.looks|, n), StepOf(history[upto].steps, n);
    PolledForward(history, c, upto, n);
    ReceivedIsTold(history, c, n);
    hide *;
    ChangesStayForward(s, bound);
    ForwardPrefix(StepEvents(c.received, n), Changes(s), bound);
  }

  /** Nor does it go back behind the state that the connection began with. */
  lemma WatchedFromFirst(history: seq<View>, c: Connection, upto: nat, n: nat)
    requires OnlyForward(history, n) && 1 <= n <= 7 && Watched(history, c) && upto < |history|
    requires forall i :: 0 <= i < |c.looks| ==> c.looks[i].rowsAt <= upto
    ensures var first := FirstLook(c, upto);
            && first <= upto
            && forall i :: 0 <= i < |StepEvents(c.received, n)| ==>
                 StepAdvances(StepOf(history[first].steps, n), StepEvents(c.received, n)[i])
  {
    var s := PolledStep(c.polls, |c.looks|, n);
    assert Changes<StepStatus>([]) == [] && |s| == |c.looks|;
    ReceivedIsTold(history, c, n);
    PolledForward(history, c, upto, n);
    hide Watched, StepOf, StepEvents, Changes, StepAdvances, OnlyForward, PolledStep;
    ChangesStayForward(s, StepOf(history[upto].steps, n));
  }

  /** Across any number of timeouts and reconnects, the statuses that a browser receives for a step only
      move pending, in_progress, one final value, and never back, whatever is committed to the run; for
      step 1 this holds as long as no failed setup's row has met the claimant's. */
  lemma {:induction false} NeverBackwards(story: Story, connections: seq<Connection>, upto: nat, n: nat)
    requires IsStory(story) && 1 <= n <= 7 && (n == 1 ==> !TurnedBack(story))
    requires upto < |Views(story)| && InOrder(Views(story), connections, upto)
    ensures Forward(Received(connections, n), StepOf(Views(story)[upto].steps, n))
    decreases |connections|
  {
    if connections != [] {
      var views, last, rest := Views(story), connections[|connections| - 1], connections[..|connections| - 1];
      var first := FirstLook(last, upto);
      OnlyForwardIff(story, n);
      WatchedForward(views, last, upto, n);
      WatchedFromFirst(views, last, upto, n);
      NeverBackwards(story, rest, first, n);
      ForwardConcat(Received(rest, n), StepEvents(last.received, n),
                    StepOf(views[first].steps, n), StepOf(views[upto].steps, n));
    }
  }

  // ---------- At done ----------

  lemma {:induction false} StepOfStraight(steps: seq<StepRow>, n: nat)
    requires Straight(steps) && 1 <= n
    ensures StepOf(steps, n) == if n <= |steps| then steps[n - 1].status else Waiting
    decreases |steps|
  {
    if steps != [] {
      var init := steps[..|steps| - 1];
      forall i | 0 <= i < |init| ensures init[i] == steps[i] {}
      StepOfStraight(init, n);
    }
  }

  lemma StepOfBroken(steps: seq<StepRow>, n: nat)
    requires Broken(steps) && 1 <= n <= 7
    ensures StepOf(steps, n) == if n == 7 then steps[|steps| - 1].status
                                else if n < |steps| then steps[n - 1].status else Waiting
  {
    StepOfStraight(steps[..|steps| - 1], n);
  }

  /** A finished run: step 7 is success and no step is in progress; a successful one has all seven steps
      finished, and a failed one has exactly one failed step, every step before it finished and every step
      between it and step 7 never begun. */
  ghost predicate ShowsFinishedRun(v: View) {
    && StepOf(v.steps, 7) == Succeeded
    && (forall n: nat {:trigger StepOf(v.steps, n)} :: 1 <= n <= 7 ==> StepOf(v.steps, n) != Running)
    && (v.status == Success ==>
          forall n: nat {:trigger StepOf(v.steps, n)} :: 1 <= n <= 7 ==>
            StepOf(v.steps, n) == Succeeded || (n == 2 && StepOf(v.steps, n) == Skipped))
    && (v.status == Failed ==>
          var k := |v.steps| - 1;
          && (k == 1 || k == 2 || k == 4 || k == 5)
          && StepOf(v.steps, k) == Errored
          && (forall n: nat {:trigger StepOf(v.steps, n)} :: 1 <= n < k ==>
                StepOf(v.steps, n) == Succeeded || (n == 2 && StepOf(v.steps, n) == Skipped))
          && (forall n: nat {:trigger StepOf(v.steps, n)} :: k < n < 7 ==> StepOf(v.steps, n) == Waiting))
  }

  lemma TerminalShowsFinishedRun(v: View)
    requires Grammar(v) && Terminal(v.status)
    ensures ShowsFinishedRun(v)
  {
    if v.status == Success {
      forall n: nat | 1 <= n <= 7
        ensures StepOf(v.steps, n) == Succeeded || (n == 2 && StepOf(v.steps, n) == Skipped)
      {
        StepOfStraight(v.steps, n);
      }
    } else {
      forall n: nat | 1 <= n <= 7
        ensures StepOf(v.steps, n) == if n == 7 then Succeeded
                                      else if n < |v.steps| then v.steps[n - 1].status else Waiting
      {
        StepOfBroken(v.steps, n);
      }
    }
  }

  /** Rows with step 7 finished are determined by the statuses they show. */
  lemma FinishedRows(v: View)
    requires Grammar(v) && StepOf(v.steps, 7) == Succeeded
    ensures (Straight(v.steps) && |v.steps| == 7) || (Broken(v.steps) && v.steps[|v.steps| - 1].status == Succeeded)
  {
    if Straight(v.steps) { StepOfStraight(v.steps, 7); } else { StepOfBroken(v.steps, 7); }
  }

  lemma AdvancedStep(u: View, v: View, n: nat)
    requires StepsAdvance(u.steps, v.steps) && 1 <= n <= 7 && StepRank(StepOf(u.steps, n)) == 2
    ensures StepOf(v.steps, n) == StepOf(u.steps, n)
  {
    assert StepAdvances(StepOf(u.steps, n), StepOf(v.steps, n));
  }

  lemma StraightRowsStay(u: View, v: View)
    requires Straight(u.steps) && |u.steps| == 7 && StepsAdvance(u.steps, v.steps)
    requires StepOf(u.steps, 7) == Succeeded
    requires (Straight(v.steps) && |v.steps| == 7) || Broken(v.steps)
    ensures u.steps == v.steps
  {
    forall n: nat | 1 <= n <= 7 ensures StepOf(v.steps, n) == u.steps[n - 1].status != Errored {
      StepOfStraight(u.steps, n);
      AdvancedStep(u, v, n);
    }
    if Straight(v.steps) {
      forall i | 0 <= i < 7 ensures u.steps[i] == v.steps[i] { StepOfStraight(v.steps, i + 1); }
    } else {
      StepOfBroken(v.steps, |v.steps| - 1);
      assert false;
    }
  }

  lemma BrokenRowsStay(u: View, v: View)
    requires Broken(u.steps) && u.steps[|u.steps| - 1].status == Succeeded && StepsAdvance(u.steps, v.steps)
    requires (Straight(v.steps) && |v.steps| == 7)
             || (Broken(v.steps) && v.steps[|v.steps| - 1].status == Succeeded)
    ensures u.steps == v.steps
  {
    hide StepOf, StepsAdvance;
    var k := |u.steps| - 1;
    StepOfBroken(u.steps, k);
    AdvancedStep(u, v, k);
    if Straight(v.steps) {
      StepOfStraight(v.steps, k);
      assert false;
    } else {
      StepOfBroken(v.steps, k);
      assert |v.steps| == |u.steps| by { BrokenAt(u.steps, v.steps); }
      forall i | 0 <= i < k ensures u.steps[i] == v.steps[i] {
        StepOfBroken(u.steps, i + 1);
        StepOfBroken(v.steps, i + 1);
        AdvancedStep(u, v, i + 1);
      }
    }
  }

  /** Where the failed step is decides how many rows there are. */
  lemma BrokenAt(s: seq<StepRow>, t: seq<StepRow>)
    requires Broken(s) && Broken(t) && StepOf(t, |s| - 1) == Errored
    ensures |s| == |t|
  {
    StepOfBroken(t, |s| - 1);
    var init := t[..|t| - 1];
    assert forall i :: 0 <= i < |init| ==> init[i] == t[i];
  }

  /** After step 7 has succeeded no commit touches the step rows. */
  lemma RowsStay(u: View, v: View)
    requires Grammar(u) && Grammar(v) && StepsAdvance(u.steps, v.steps) && Terminal(v.status)
    requires StepOf(u.steps, 7) == Succeeded
    ensures u.steps == v.steps
  {
    FinishedRows(u);
    TerminalShowsFinishedRun(v);
    FinishedRows(v);
    hide Grammar, ShowsFinishedRun;
    if Straight(u.steps) && |u.steps| == 7 { StraightRowsStay(u, v); } else { BrokenRowsStay(u, v); }
  }

  /** At a terminal status the rows read before it show step 7 as success if and only if no step row was
      committed between the two reads. */
  lemma StaleReadIff(history: seq<View>, a: nat, b: nat)
    requires Legal(history) && a <= b < |history| && Terminal(history[b].status)
    ensures StepOf(history[a].steps, 7) == Succeeded <==> history[a].steps == history[b].steps
  {
    LegalAdvances(history, a, b);
    TerminalShowsFinishedRun(history[b]);
    if StepOf(history[a].steps, 7) == Succeeded { RowsStay(history[a], history[b]); }
  }

  /** The status that a browser shows for step `n` after these events. */
  function Showing(events: seq<SseEvent>, n: nat): StepStatus {
    var told := StepEvents(events, n);
    if told == [] then Waiting else told[|told| - 1]
  }

  /** A whole stream, all of which reached the browser, and whose last event is `done`. */
  ghost predicate EndsWithDone(history: seq<View>, c: Connection) {
    && Watched(history, c) && IsStream(c.polls, |c.looks|, c.received)
    && c.received[|c.received| - 1].DoneEvent?
  }

  /** At the end of a stream the browser shows every step as the last poll did. */
  lemma ShowsLastPoll(history: seq<View>, c: Connection, n: nat)
    requires Watched(history, c) && IsStream(c.polls, |c.looks|, c.received) && 1 <= n <= 7
    ensures Showing(c.received, n) == StepOf(history[c.looks[|c.looks| - 1].rowsAt].steps, n)
  {
    hide StepEvents, PolledStep, Changes, StepOf;
    var k := |c.looks|;
    assert c.polls(k - 1).rows == history[c.looks[k - 1].rowsAt].steps;
    ReplayGivesLastPoll(c.polls, k, c.received, n);
  }

  /** For a run for which no storage setup failed: after `done` the browser shows step 7 as success if and
      only if no step row was committed between the last poll's two reads, and then it shows a finished run,
      step by step. */
  lemma DoneShowsAFinishedRunIff(story: Story, c: Connection)
    requires IsStory(story) && RowOf(story).setupFailures == 0 && EndsWithDone(Views(story), c)
    ensures var views, look := Views(story), c.looks[|c.looks| - 1];
            var rows, v := views[look.rowsAt].steps, views[look.statusAt];
            && c.received[|c.received| - 1] == DoneEvent(v.status)
            && (Showing(c.received, 7) == Succeeded <==> rows == v.steps)
            && (rows == v.steps ==>
                  && ShowsFinishedRun(v)
                  && forall n: nat {:trigger Showing(c.received, n)} :: 1 <= n <= 7 ==>
                       Showing(c.received, n) == StepOf(v.steps, n))
  {
    var views, look := Views(story), c.looks[|c.looks| - 1];
    LegalIff(story);
    StaleReadIff(views, look.rowsAt, look.statusAt);
    TerminalShowsFinishedRun(views[look.statusAt]);
    forall n: nat | 1 <= n <= 7 ensures Showing(c.received, n) == StepOf(views[look.rowsAt].steps, n) {
      ShowsLastPoll(views, c, n);
    }
  }

  /** Whatever was committed to the run, after `done` the browser shows step 7 as success if and only if the
      execution had ended its notification when the last poll read the rows. */
  lemma DoneShowsNotifyIff(story: Story, c: Connection)
    requires IsStory(story) && EndsWithDone(Views(story), c)
    ensures c.looks != [] && c.looks[|c.looks| - 1].rowsAt < |Views(story)|
    ensures var stage := StageOf(Until(story, c.looks[|c.looks| - 1].rowsAt));
            Showing(c.received, 7) == Succeeded <==> stage.Some? && HasNotified(stage.value)
  {
    var look := c.looks[|c.looks| - 1];
    assert look.rowsAt < |Views(story)|;
    hide Showing, StepOf, Watched, IsStream, Views, ViewAfter, IsStory, StageOf, Until;
    ShowsLastPoll(Views(story), c, 7);
    UntilShows(story, look.rowsAt);
    NotifyShownIff(Until(story, look.rowsAt));
  }

  // ---------- Where these laws fail ----------

  /** One poll of one connection, at given commits. */
  method Look(history: seq<View>, look: Read) returns (c: Connection)
    requires look.rowsAt <= look.statusAt < |history|
    ensures Watched(history, c) && c.looks == [look] && IsStream(c.polls, 1, c.received)
    ensures forall n: nat {:trigger StepEvents(c.received, n)} :: 1 <= n <= 7 ==>
              StepEvents(c.received, n) == [StepOf(history[look.rowsAt].steps, n)]
    ensures forall n: nat {:trigger Showing(c.received, n)} :: 1 <= n <= 7 ==>
              Showing(c.received, n) == StepOf(history[look.rowsAt].steps, n)
    ensures Terminal(history[look.statusAt].status) ==>
              EndsWithDone(history, c) && c.received[|c.received| - 1] == DoneEvent(history[look.statusAt].status)
  {
    var poll := Poll(history[look.rowsAt].steps, Some(history[look.statusAt].status));
    var events, k := StreamRunProgress(i => poll, 1.0, 0.0);
    c := Connection(i => poll, [look], events);
  }

  /** The commit with which step 1 first goes back. */
  function TurnAt(story: Story): (i: nat)
    requires IsStory(story) && TurnedBack(story)
    ensures 0 < i < |Views(story)|
    ensures !StepAdvances(StepOf(Views(story)[i - 1].steps, 1), StepOf(Views(story)[i].steps, 1))
  {
    if TurnedBack(story.before) then TurnAt(story.before)
    else
      StepGoesBackIff(story.before, story.w, 1);
      |Views(story.before)|
  }

  lemma TwoLooks(history: seq<View>, c: Connection, d: Connection, upto: nat)
    requires 0 < upto < |history| && Watched(history, c) && Watched(history, d)
    requires c.looks == [Read(upto - 1, upto - 1)] && d.looks == [Read(upto, upto)]
    ensures InOrder(history, [c, d], upto)
    ensures Received([c, d], 1) == StepEvents(c.received, 1) + StepEvents(d.received, 1)
  {
    hide Watched, StepEvents;
    assert [c, d][..1] == [c] && [c][..0] == [];
    assert InOrder(history, [], upto - 1) && Received([], 1) == [];
    assert InOrder(history, [c], upto);
    assert Received([c], 1) == StepEvents(c.received, 1);
  }

  /** A browser may see step 1 go back for every run whose history does: the commit and the one before it may
      be seen by two connections. */
  method GoingBackMayBeSeen(story: Story) returns (connections: seq<Connection>, upto: nat)
    requires IsStory(story) && TurnedBack(story)
    ensures upto < |Views(story)| && InOrder(Views(story), connections, upto)
    ensures !Forward(Received(connections, 1), StepOf(Views(story)[upto].steps, 1))
  {
    upto := TurnAt(story);
    hide Watched, InOrder, Received, StepEvents, StepOf, StepAdvances, Views, IsStory, TurnedBack, IsStream;
    var views := Views(story);
    var c := Look(views, Read(upto - 1, upto - 1));
    var d := Look(views, Read(upto, upto));
    connections := [c, d];
    TwoLooks(views, c, d, upto);
    assert !StepAdvances(Received(connections, 1)[0], Received(connections, 1)[1]);
  }

  /** The beginning of a step is among the commits. */
  lemma BeginIsSeen(story: Story, g: Stage, w: Write, w': Write)
    requires g.Begun?
    ensures var begun := Then(story, StepBegins(g));
            var views := Views(Then(Then(begun, w), w'));
            |views| == |Views(begun)| + 2 && StepOf(views[|Views(begun)| - 1].steps, g.step) == Running
  {
    BeginShows(story, g, g.step);
    hide StepOf, ViewAfter;
    var begun := Then(story, StepBegins(g));
    var ended := Then(begun, w);
    assert Views(Then(ended, w')) == Views(begun) + [ViewAfter(ended), ViewAfter(Then(ended, w'))];
  }

  lemma FinishesWell(story: Story)
    requires IsStory(story) && StageOf(story) == Some(Ended(7))
    ensures IsStory(Then(story, OnRow(Finishes(true))))
    ensures RowOf(Then(story, OnRow(Finishes(true)))) == Run(Success, RowOf(story).setupFailures)
  {
  }

  /** A run that is claimed, started and succeeds. */
  lemma SmoothSuccess(k: nat, story: Story)
    requires k == 7 && story == Then(Smooth(OPENED, k), OnRow(Finishes(true)))
    ensures IsStory(story) && RowOf(story) == Run(Success, 0)
  {
    OpenedRun();
    assert RowOf(OPENED).setupFailures == 0;
    hide *;
    SmoothRun(OPENED, k);
    FinishesWell(Smooth(OPENED, k));
  }

  lemma SmoothBegins(story: Story, k: nat, w: Write)
    ensures var views := Views(Then(Smooth(story, k + 1), w));
            |views| >= 3 && StepOf(views[|views| - 3].steps, k + 1) == Running
  {
    BeginIsSeen(Smooth(story, k), Begun(k + 1), StepEnds(Ended(k + 1), Succeeded, []), w);
  }

  /** The steps are read before the status, so the last commits of a run may fall between the two reads, and
      `done` then follows a step 7 still in progress. */
  method DoneMayFollowAStaleStep() returns (story: Story, c: Connection)
    ensures IsStory(story) && RowOf(story).setupFailures == 0 && EndsWithDone(Views(story), c)
    ensures c.received[|c.received| - 1] == DoneEvent(Success) && Showing(c.received, 7) == Running
  {
    assert Terminal(Success);
    hide Smooth, ViewAfter, IsStory;
    story := Then(Smooth(OPENED, 7), OnRow(Finishes(true)));
    SmoothSuccess(7, story);
    SmoothBegins(OPENED, 6, story.w);
    assert RowOf(story).status == ViewAfter(story).status;
    hide *;
    c := Look(Views(story), Read(|Views(story)| - 3, |Views(story)| - 1));
  }

  /** A run whose storage could not be set up is done with a step 7 that never began, even when both reads
      see one commit. */
  method DoneWithoutNotify() returns (story: Story, c: Connection)
    ensures IsStory(story) && EndsWithDone(Views(story), c)
    ensures c.looks == [Read(|Views(story)| - 1, |Views(story)| - 1)]
    ensures c.received[|c.received| - 1] == DoneEvent(Failed) && Showing(c.received, 7) == Waiting
  {
    story := Then(Start, OnRow(Fails(Pending)));
    SetupFailureShowsNoNotify(story);
    assert Terminal(Failed);
    hide *;
    c := Look(Views(story), Read(|Views(story)| - 1, |Views(story)| - 1));
  }
}
