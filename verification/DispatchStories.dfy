/** The stories of runs inside the dispatch protocol: the protocol's actions are what writes the rows, and
    its count of failed setups decides whether what a run shows is legal. */
module DispatchStories {
  import opened Wrappers
  import opened Dispatch
  import opened DispatchInvariants
  import opened DispatchClaims
  import opened RunViews
  import opened RunStories

  /** The writes of a behaviour to row `r`. */
  function WritesTo(s: State, more: seq<Action>, r: nat): seq<RowWrite>
    requires Possible(s, more)
    decreases |more|
  {
    if more == [] then []
    else
      var w := WriteTo(s, more[0], r);
      (if w == Untouched then [] else [w]) + WritesTo(Apply(s, more[0]), more[1..], r)
  }

  lemma {:induction false} AfterWritesFrom(run: Run, w: RowWrite, writes: seq<RowWrite>)
    ensures AfterWrites(run, [w] + writes) == AfterWrites(Written(run, w), writes)
  {
    var all := [w] + writes;
    if writes == [] {
      assert all[..0] == [] && all[0] == w;
    } else {
      AfterWritesFrom(run, w, writes[..|writes| - 1]);
      assert all[..|all| - 1] == [w] + writes[..|writes| - 1];
    }
  }

  /** A row after a behaviour is what the behaviour's writes to it make of it. */
  lemma {:induction false} RowAfterWrites(s: State, more: seq<Action>, r: nat)
    requires Possible(s, more) && r < |s.runs|
    ensures r < |After(s, more).runs|
    ensures After(s, more).runs[r] == AfterWrites(s.runs[r], WritesTo(s, more, r))
    decreases |more|
  {
    if more != [] {
      var s', w := Apply(s, more[0]), WriteTo(s, more[0], r);
      ApplyWrites(s, more[0], r);
      RowAfterWrites(s', more[1..], r);
      if w == Untouched {
        assert [] + WritesTo(s', more[1..], r) == WritesTo(s', more[1..], r);
      } else {
        AfterWritesFrom(s.runs[r], w, WritesTo(s', more[1..], r));
      }
    }
  }

  // ---------- Every behaviour has a story ----------

  /** The story of a failure at step 1, up to the end of its notification. */
  function Breaks(story: Story): Story {
    Then(Then(Then(Then(story, StepBegins(Begun(1))), StepEnds(Broke(1), Errored, [])),
              StepBegins(Telling(1))), StepEnds(Told(1), Succeeded, []))
  }

  /** The story after an action: its write to the row; before the claimant's last write, its steps. */
  function NextStory(s: State, a: Action, r: nat, story: Story): Story
    requires Enabled(s, a)
  {
    match WriteTo(s, a, r)
    case Untouched => story
    case Finishes(ok) => Then(if ok then Smooth(story, 7) else Breaks(story), OnRow(Finishes(ok)))
    case w => Then(story, OnRow(w))
  }

  /** A delivery of the run at this point has seen, and done, what the story says. */
  ghost predicate Placed(pc: Pc, story: Story) {
    match pc
    case Failing(loaded) => Had(story, loaded)
    case Load => StageOf(story) == Some(Claimed) && !Opened(story)
    case Begin(loaded) =>
      && StageOf(story) == Some(Claimed) && !Opened(story) && Had(story, loaded)
      && (loaded == InProgress || SetupFailures(story) > 0)
    case Work => StageOf(story) == Some(Claimed) && Opened(story)
    case _ => true
  }

  /** The endpoint of batch `b` has loaded this status of row `r`, to mark it. */
  predicate HasSeen(s: State, b: nat, r: nat, status: RunStatus)
    requires b < |s.batches|
  {
    IsMarking(s, b) && var batch := s.batches[b];
    batch.items[batch.endpoint.marked].run == r && batch.endpoint.seen == Some(status)
  }

  /** The story so far accounts for row `r` and for whatever handlers know of it. */
  ghost predicate Matches(s: State, r: nat, story: Story) {
    && IsStory(story)
    && (if r < |s.runs| then RowOf(story) == s.runs[r] else story == Start)
    && (forall d :: 0 <= d < |s.deliveries| && s.deliveries[d].Run() == r ==> Placed(s.deliveries[d].pc, story))
    && (forall b, status :: 0 <= b < |s.batches| && HasSeen(s, b, r, status) ==> Had(story, status))
  }

  lemma {:induction false} SmoothKeeps(story: Story, k: nat, status: RunStatus)
    ensures RowWrites(Smooth(story, k)) == RowWrites(story)
    ensures Had(story, status) ==> Had(Smooth(story, k), status)
  {
    if k > 0 { SmoothKeeps(story, k - 1, status); }
  }

  lemma BreaksKeeps(story: Story, status: RunStatus)
    ensures RowWrites(Breaks(story)) == RowWrites(story)
    ensures Had(story, status) ==> Had(Breaks(story), status)
  {
    var broke := Then(Then(story, StepBegins(Begun(1))), StepEnds(Broke(1), Errored, []));
    assert RowWrites(broke) == RowWrites(story);
    assert Had(story, status) ==> Had(broke, status);
  }

  lemma BreaksRun(story: Story)
    requires IsStory(story) && StageOf(story) == Some(Claimed) && Opened(story)
    ensures IsStory(Breaks(story)) && RowOf(Breaks(story)) == RowOf(story) && StageOf(Breaks(story)) == Some(Told(1))
  {
    var begun := Then(story, StepBegins(Begun(1)));
    var broke := Then(begun, StepEnds(Broke(1), Errored, []));
    var told := Then(broke, StepBegins(Telling(1)));
    assert IsStory(begun) && RowOf(begun) == RowOf(story) && StageOf(begun) == Some(Begun(1));
    assert IsStory(broke) && RowOf(broke) == RowOf(story) && StageOf(broke) == Some(Broke(1));
    assert IsStory(told) && RowOf(told) == RowOf(story) && StageOf(told) == Some(Telling(1));
  }

  /** The steps before the claimant's last write, and that write. */
  lemma FinishStory(story: Story, ok: bool)
    requires IsStory(story) && StageOf(story) == Some(Claimed) && Opened(story)
    ensures var done := if ok then Smooth(story, 7) else Breaks(story);
            IsStory(done) && RowOf(done) == RowOf(story) && Can(done, OnRow(Finishes(ok)))
  {
    if ok { SmoothRun(story, 7); } else { BreaksRun(story); }
  }

  lemma NextHad(s: State, a: Action, r: nat, story: Story, status: RunStatus)
    requires Enabled(s, a) && Had(story, status)
    ensures Had(NextStory(s, a, r, story), status)
  {
    match WriteTo(s, a, r)
    case Finishes(ok) =>
      if ok { SmoothKeeps(story, 7, status); } else { BreaksKeeps(story, status); }
    case _ =>
  }

  lemma NextWrites(s: State, a: Action, r: nat, story: Story)
    requires Enabled(s, a)
    ensures var w := WriteTo(s, a, r);
            RowWrites(NextStory(s, a, r, story)) == RowWrites(story) + if w == Untouched then [] else [w]
  {
    match WriteTo(s, a, r)
    case Finishes(ok) =>
      if ok { SmoothKeeps(story, 7, Pending); } else { BreaksKeeps(story, Pending); }
    case _ =>
  }

  /** The write of an action is one that the story allows next. */
  lemma NextIsStory(s: State, a: Action, r: nat, story: Story)
    requires Enabled(s, a) && Matches(s, r, story)
    ensures IsStory(NextStory(s, a, r, story))
    ensures r < |s.runs| ==> RowOf(NextStory(s, a, r, story)) == Written(s.runs[r], WriteTo(s, a, r))
  {
    match WriteTo(s, a, r)
    case Untouched =>
    case Fails(loaded) =>
      if a.MarkFailed? {
        assert HasSeen(s, a.batch, r, loaded);
      } else {
        assert Placed(s.deliveries[a.delivery].pc, story);
      }
    case Claims =>
    case Begins(loaded) => assert Placed(s.deliveries[a.delivery].pc, story);
    case Finishes(ok) =>
      assert Placed(s.deliveries[a.delivery].pc, story);
      FinishStory(story, ok);
  }

  lemma {:induction false} OpenedWasClaimed(story: Story)
    requires IsStory(story)
    ensures Opened(story) ==> StageOf(story).Some?
  {
    if story.Then? { OpenedWasClaimed(story.before); }
  }

  /** A successful claim is the first: the story has no claimant before it. */
  lemma ClaimMatches(s: State, r: nat, story: Story, d: nat)
    requires Enabled(s, ClaimRun(d)) && Matches(s, r, story) && s.deliveries[d].Run() == r
    ensures Placed(Apply(s, ClaimRun(d)).deliveries[d].pc, Then(story, OnRow(Claims)))
  {
    StoryFacts(story);
    OpenedWasClaimed(story);
    hide IsStory, RunningRow;
  }

  /** What the claimant loads is what the story shows now. */
  lemma LoadMatches(s: State, r: nat, story: Story, d: nat)
    requires Enabled(s, LoadRun(d)) && Matches(s, r, story) && s.deliveries[d].Run() == r && ClaimantOk(s, d)
    ensures Placed(Apply(s, LoadRun(d)).deliveries[d].pc, story)
  {
    assert Placed(Load, story);
    assert RowOf(story) == s.runs[r];
    hide IsStory, RunningRow, StageOf, ViewAfter, SetupFailures;
    assert Had(story, ViewAfter(story).status);
  }

  /** Where the acting delivery of the run goes next, the story has come. */
  lemma ActorMatches(s: State, a: Action, r: nat, story: Story, d: nat)
    requires Enabled(s, a) && Matches(s, r, story) && Actor(a) == Some(d)
    requires d < |s.deliveries| && s.deliveries[d].Run() == r < |s.runs| && ClaimantOk(s, d)
    ensures d < |Apply(s, a).deliveries| && Placed(Apply(s, a).deliveries[d].pc, NextStory(s, a, r, story))
  {
    assert Placed(s.deliveries[d].pc, story);
    match a
    case LoadToFail(_) => assert Had(story, ViewAfter(story).status);
    case ClaimRun(_) => ClaimMatches(s, r, story, d);
    case LoadRun(_) => LoadMatches(s, r, story, d);
    case BeginPipeline(_) => assert Opened(NextStory(s, a, r, story));
    case _ =>
  }

  /** Writes of others leave a delivery of the run where it is. */
  lemma BystanderMatches(s: State, a: Action, r: nat, story: Story, d: nat)
    requires Inv(s) && Enabled(s, a) && Matches(s, r, story) && Actor(a) != Some(d)
    requires d < |s.deliveries| && s.deliveries[d].Run() == r < |s.runs|
    ensures Placed(s.deliveries[d].pc, NextStory(s, a, r, story))
  {
    assert DeliveryOk(s, d) && Placed(s.deliveries[d].pc, story);
    if s.deliveries[d].pc.Failing? {
      NextHad(s, a, r, story, s.deliveries[d].pc.loaded);
    } else if InPipeline(s.deliveries[d].pc) {
      if Actor(a).Some? {
        assert DeliveryOk(s, Actor(a).value);
        if s.deliveries[Actor(a).value].Run() == r && Actor(a).value in s.claims { OneClaimant(s, d, Actor(a).value); }
      }
      BystanderWrite(s, a, d);
      if s.deliveries[d].pc.Begin? { NextHad(s, a, r, story, s.deliveries[d].pc.loaded); }
    }
  }

  lemma EndpointMatches(s: State, a: Action, r: nat, story: Story, b: nat, status: RunStatus)
    requires Enabled(s, a) && Matches(s, r, story) && r < |s.runs|
    requires b < |Apply(s, a).batches| && HasSeen(Apply(s, a), b, r, status)
    ensures Had(NextStory(s, a, r, story), status)
  {
    if b < |s.batches| && HasSeen(s, b, r, status) {
      NextHad(s, a, r, story, status);
    }
  }

  lemma DeliveriesMatch(s: State, a: Action, r: nat, story: Story)
    requires Inv(s) && Enabled(s, a) && Matches(s, r, story) && r < |s.runs|
    ensures forall d :: 0 <= d < |Apply(s, a).deliveries| && Apply(s, a).deliveries[d].Run() == r ==>
              Placed(Apply(s, a).deliveries[d].pc, NextStory(s, a, r, story))
  {
    ApplyEvolves(s, a);
    var s' := Apply(s, a);
    forall d | 0 <= d < |s'.deliveries| && s'.deliveries[d].Run() == r
      ensures Placed(s'.deliveries[d].pc, NextStory(s, a, r, story))
    {
      if d < |s.deliveries| {
        assert s'.deliveries[d].payload == s.deliveries[d].payload;
        assert DeliveryOk(s, d) && ClaimantOk(s, d);
        if Actor(a) == Some(d) {
          ActorMatches(s, a, r, story, d);
        } else {
          BystanderStays(s, a, d);
          BystanderMatches(s, a, r, story, d);
        }
      }
    }
  }

  /** An action and its write to an existing row keep the story in step. */
  lemma StoryStep(s: State, a: Action, r: nat, story: Story)
    requires Inv(s) && Enabled(s, a) && Matches(s, r, story) && r < |s.runs|
    ensures Matches(Apply(s, a), r, NextStory(s, a, r, story))
  {
    var s', next := Apply(s, a), NextStory(s, a, r, story);
    NextIsStory(s, a, r, story);
    ApplyWrites(s, a, r);
    DeliveriesMatch(s, a, r, story);
    forall b, status | 0 <= b < |s'.batches| && HasSeen(s', b, r, status) ensures Had(next, status) {
      EndpointMatches(s, a, r, story, b, status);
    }
  }

  lemma NobodyRuns(s: State, a: Action, r: nat, d: nat)
    requires Inv(s) && Enabled(s, a) && r >= |s.runs| && d < |Apply(s, a).deliveries|
    ensures Apply(s, a).deliveries[d].Run() != r
  {
    if d < |s.deliveries| {
      ApplyEvolves(s, a);
      assert DeliveryOk(s, d);
      DeliveryItem(s, d);
    } else {
      KeepsInv(s, a);
      assert DeliveryOk(Apply(s, a), d);
      DeliveryItem(Apply(s, a), d);
    }
  }

  lemma NobodyHasSeen(s: State, a: Action, r: nat, b: nat, status: RunStatus)
    requires Inv(s) && Enabled(s, a) && r >= |s.runs| && b < |Apply(s, a).batches|
    ensures !HasSeen(Apply(s, a), b, r, status)
  {
    if b < |s.batches| { assert BatchOk(s, b); }
  }

  /** A row that does not exist yet has no story. */
  lemma NoStoryYet(s: State, a: Action, r: nat)
    requires Inv(s) && Enabled(s, a) && r >= |s.runs|
    ensures WriteTo(s, a, r) == Untouched && Matches(Apply(s, a), r, Start)
  {
    var s' := Apply(s, a);
    forall d | 0 <= d < |s'.deliveries| ensures s'.deliveries[d].Run() != r { NobodyRuns(s, a, r, d); }
    forall b, status | 0 <= b < |s'.batches| ensures !HasSeen(s', b, r, status) {
      NobodyHasSeen(s, a, r, b, status);
    }
  }

  lemma StoryAction(s: State, a: Action, r: nat, story: Story)
    requires Inv(s) && Enabled(s, a) && Matches(s, r, story)
    ensures Inv(Apply(s, a)) && Matches(Apply(s, a), r, NextStory(s, a, r, story))
  {
    KeepsInv(s, a);
    hide Inv, Apply;
    if r < |s.runs| { StoryStep(s, a, r, story); } else { NoStoryYet(s, a, r); }
  }

  lemma {:induction false} StoryOn(s: State, more: seq<Action>, r: nat, story: Story) returns (next: Story)
    requires Inv(s) && Possible(s, more) && Matches(s, r, story)
    ensures Matches(After(s, more), r, next) && RowWrites(next) == RowWrites(story) + WritesTo(s, more, r)
    decreases |more|
  {
    hide Matches, NextStory, Inv, Apply, Enabled, WriteTo, RowWrites;
    if more == [] {
      next := story;
    } else {
      StoryAction(s, more[0], r, story);
      NextWrites(s, more[0], r, story);
      next := StoryOn(Apply(s, more[0]), more[1..], r, NextStory(s, more[0], r, story));
    }
  }

  /** Every behaviour of the protocol has, for each of its runs, a story with exactly its writes to the row,
      in their order; the row at the end is the story's, and the history that the story shows is legal if and
      only if the protocol has counted no failed setup. */
  lemma EveryBehaviourHasStory(actions: seq<Action>, r: nat) returns (story: Story)
    requires Possible(INITIAL, actions) && r < |After(INITIAL, actions).runs|
    ensures IsStory(story) && RowWrites(story) == WritesTo(INITIAL, actions, r)
    ensures RowOf(story) == After(INITIAL, actions).runs[r]
    ensures Legal(Views(story)) <==> After(INITIAL, actions).runs[r].setupFailures == 0
  {
    InitialInv();
    assert Matches(INITIAL, r, Start);
    story := StoryOn(INITIAL, actions, r, Start);
    LegalIff(story);
  }

  /** Whatever the dispatch protocol does from the creation of a run on, and whatever its execution commits
      in between: the committed history of the run is legal if and only if the protocol has counted no
      failed setup for it. */
  lemma LegalIffNoFailedSetup(s: State, more: seq<Action>, r: nat, story: Story)
    requires Possible(s, more) && r < |s.runs| && s.runs[r] == Run(Pending, 0)
    requires IsStory(story) && RowWrites(story) == WritesTo(s, more, r)
    ensures r < |After(s, more).runs| && After(s, more).runs[r] == RowOf(story)
    ensures Legal(Views(story)) <==> After(s, more).runs[r].setupFailures == 0
  {
    RowAfterWrites(s, more, r);
    RowIsWritten(story);
    LegalIff(story);
  }
}
