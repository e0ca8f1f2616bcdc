/** What every story shows of its steps, failed setups included: only step 1 can ever go back, and exactly
    when a failed setup's row meets the claimant's own row of that number. */
module StorySteps {
  import opened Dispatch
  import opened RunViews
  import opened RunStories

  function ShownStep(story: Story, n: nat): StepStatus {
    StepOf(ViewAfter(story).steps, n)
  }

  /** The status that the stage of the execution calls for. */
  function OwnStep(story: Story, n: nat): StepStatus {
    if StageOf(story).Some? && ValidStage(StageOf(story).value)
    then StepAt(StageOf(story).value, ShownStep(story, 2) == Skipped, n)
    else Waiting
  }

  // ---------- The row in progress ----------

  /** The row in progress has the number of the stage, and only rows of failed setups come after it. */
  ghost predicate InPlace(story: Story) {
    var g, steps := StageOf(story), ViewAfter(story).steps;
    && (RunningRow(story).Some? <==> g.Some? && (g.value.Begun? || g.value.Telling?))
    && (RunningRow(story).Some? ==>
          var i := RunningRow(story).value;
          && i < |steps| && steps[i] == StepRow(if g.value.Begun? then g.value.step else 7, Running)
          && forall j :: i < j < |steps| ==> steps[j] == StepRow(1, Errored))
  }

  lemma {:induction false} StoryInPlace(story: Story)
    requires IsStory(story)
    ensures InPlace(story)
    ensures StageOf(story).Some? ==> ValidStage(StageOf(story).value) && ViewAfter(story).status != Pending
  {
    if story.Then? {
      StoryInPlace(story.before);
    }
  }

  lemma StoryStage(story: Story)
    requires IsStory(story)
    ensures StageOf(story).Some? ==> ValidStage(StageOf(story).value) && ViewAfter(story).status != Pending
  {
    StoryInPlace(story);
  }

  /** Finishing a row followed only by rows of failed setups shows in its own step, except for step 1, which
      stays failed if such a row follows. */
  lemma {:induction false} FinishedShows(steps: seq<StepRow>, i: nat, status: StepStatus, n: nat)
    requires i < |steps| && forall j :: i < j < |steps| ==> steps[j] == StepRow(1, Errored)
    ensures StepOf(steps[i := steps[i].(status := status)], n) ==
            if n == steps[i].number && (n != 1 || i == |steps| - 1) then status else StepOf(steps, n)
    decreases |steps|
  {
    var done := steps[i := steps[i].(status := status)];
    var init := steps[..|steps| - 1];
    if i == |steps| - 1 {
      assert done[..i] == init;
    } else {
      assert done[..|steps| - 1] == init[i := init[i].(status := status)];
      FinishedShows(init, i, status, n);
    }
  }

  // ---------- Every step but the first shows its stage ----------

  /** What a story shows of a step is what its stage calls for, or step 1 is failed by a failed setup. */
  ghost predicate Shows(story: Story, n: nat) {
    ShownStep(story, n) == OwnStep(story, n) || (n == 1 && ShownStep(story, 1) == Errored && SetupFailures(story) > 0)
  }

  lemma BeginShows(story: Story, g: Stage, n: nat)
    ensures ShownStep(Then(story, StepBegins(g)), n) ==
            if n == (if g.Begun? then g.step else 7) then Running else ShownStep(story, n)
  {
    StepOfLast(ViewAfter(story).steps, StepRow(if g.Begun? then g.step else 7, Running), n);
  }

  /** The row in progress shows, unless a failed setup's row hides it. */
  lemma RunningShows(story: Story)
    requires InPlace(story) && RunningRow(story).Some?
    ensures var steps, i := ViewAfter(story).steps, RunningRow(story).value;
            ShownStep(story, 1) == (if i < |steps| - 1 then Errored
                                    else if steps[i].number == 1 then Running
                                    else StepOf(steps[..i], 1))
  {
  }

  lemma EndShows(story: Story, w: Write, n: nat)
    requires InPlace(story) && RunningRow(story).Some? && w.StepEnds?
    ensures var row := ViewAfter(story).steps[RunningRow(story).value];
            ShownStep(Then(story, w), n) ==
            if n == row.number && (n != 1 || ShownStep(story, 1) == Running) then w.status else ShownStep(story, n)
  {
    FinishedShows(ViewAfter(story).steps, RunningRow(story).value, w.status, n);
    RunningShows(story);
  }

  /** One commit of the execution takes what its stage calls for to what the next stage does. */
  lemma StageShows(g: Stage, g': Stage, status: StepStatus, skipped: bool, n: nat)
    requires ValidStage(g) && NextStage(g, g') && 1 <= n <= 7
    requires g.Begun? || g.Telling? ==> MayFinish(g, g', status)
    requires skipped ==> StepAt(g, true, 2) == Skipped
    ensures ValidStage(g')
    ensures g'.Begun? || g'.Telling? ==>
              StepAt(g', skipped, n) ==
              if n == (if g'.Begun? then g'.step else 7) then Running else StepAt(g, skipped, n)
    ensures g.Begun? || g.Telling? ==>
              StepAt(g', skipped || status == Skipped, n) ==
              if n == (if g.Begun? then g.step else 7) then status else StepAt(g, skipped, n)
    ensures !(g'.Begun? || g'.Telling? || g.Begun? || g.Telling?) ==> StepAt(g', skipped, n) == StepAt(g, skipped, n)
  {
  }

  lemma BeginKeepsShows(story: Story, g: Stage, n: nat)
    requires IsStory(story) && Can(story, StepBegins(g)) && 1 <= n <= 7 && Shows(story, 2) && Shows(story, n)
    ensures Shows(Then(story, StepBegins(g)), n)
  {
    hide ViewAfter, IsStory, RunningRow;
    StoryStage(story);
    BeginShows(story, g, n);
    BeginShows(story, g, 2);
    StageShows(StageOf(story).value, g, Succeeded, ShownStep(story, 2) == Skipped, n);
  }

  lemma EndKeepsShows(story: Story, w: Write, n: nat)
    requires IsStory(story) && Can(story, w) && w.StepEnds? && 1 <= n <= 7 && Shows(story, 2) && Shows(story, n)
    ensures Shows(Then(story, w), n)
  {
    StoryInPlace(story);
    EndShows(story, w, n);
    EndShows(story, w, 2);
    hide ViewAfter, IsStory, RunningRow, InPlace;
    StageShows(StageOf(story).value, w.stage, w.status, ShownStep(story, 2) == Skipped, n);
  }

  lemma FailureKeepsShows(story: Story, loaded: RunStatus, n: nat)
    requires 1 <= n <= 7 && Shows(story, n)
    ensures Shows(Then(story, OnRow(Fails(loaded))), n)
  {
    FailureShowsInStepOne(story, loaded, n);
    FailureShowsInStepOne(story, loaded, 2);
    FailureLeavesExecution(story, loaded);
    hide ViewAfter;
  }

  /** The claim and the claimant's writes to the row change no step row. */
  lemma RowKeepsShows(story: Story, w: Write, n: nat)
    requires IsStory(story) && Can(story, w) && w.OnRow? && !IsFailure(w) && 1 <= n <= 7 && Shows(story, n)
    ensures Shows(Then(story, w), n)
  {
    hide RunningRow, Had, Opened, StepOf;
    StoryStage(story);
    assert ViewAfter(Then(story, w)).steps == ViewAfter(story).steps;
    hide IsStory, ViewAfter;
  }

  lemma MoveKeepsShows(story: Story, w: Write, n: nat)
    requires IsStory(story) && Can(story, w) && w.FileMoves? && 1 <= n <= 7 && Shows(story, n)
    ensures Shows(Then(story, w), n)
  {
    hide RunningRow, Had, Opened, StepOf;
    StoryStage(story);
    assert ViewAfter(Then(story, w)).steps == ViewAfter(story).steps;
    hide IsStory, ViewAfter;
  }

  lemma {:induction false} StoryShows(story: Story, n: nat)
    requires IsStory(story) && 1 <= n <= 7
    ensures Shows(story, n)
  {
    if story.Then? {
      var before, w := story.before, story.w;
      StoryShows(before, n);
      StoryShows(before, 2);
      hide Shows;
      match w
      case StepBegins(g) => BeginKeepsShows(before, g, n);
      case StepEnds(_, _, _) => EndKeepsShows(before, w, n);
      case OnRow(Fails(loaded)) => FailureKeepsShows(before, loaded, n);
      case OnRow(_) => RowKeepsShows(before, w, n);
      case FileMoves(_) => MoveKeepsShows(before, w, n);
    }
  }

  /** A step other than the first shows the status with which it has just ended. */
  lemma EndedShows(story: Story, k: nat)
    requires IsStory(story) && story.Then? && story.w.StepEnds? && story.w.stage == Ended(k) && k >= 2
    ensures ShownStep(story, k) == story.w.status
  {
    StoryInPlace(story.before);
    EndShows(story.before, story.w, k);
  }

  predicate HasNotified(g: Stage) {
    g == Ended(7) || g.Told? || g.Lost? || g.Won?
  }

  /** Step 7 shows success exactly from the end of the execution's own notification on: no failed setup
      ever makes it show, or hides it. */
  lemma NotifyShownIff(story: Story)
    requires IsStory(story)
    ensures ShownStep(story, 7) == Succeeded <==>
            StageOf(story).Some? && HasNotified(StageOf(story).value)
  {
    StoryShows(story, 7);
    StoryStage(story);
  }

  // ---------- Going back ----------

  /** The two commits that take step 1 back: a failed setup after it has succeeded, and its beginning after
      a failed setup. */
  predicate TurnsBack(story: Story, w: Write) {
    || (IsFailure(w) && ShownStep(story, 1) == Succeeded)
    || (w == StepBegins(Begun(1)) && ShownStep(story, 1) == Errored)
  }

  predicate TurnedBack(story: Story) {
    story.Then? && (TurnsBack(story.before, story.w) || TurnedBack(story.before))
  }

  /** A commit takes what a step shows back if and only if the step is the first and the commit is one of
      those two. */
  lemma StepGoesBackIff(story: Story, w: Write, n: nat)
    requires IsStory(Then(story, w)) && 1 <= n <= 7
    ensures !StepAdvances(ShownStep(story, n), ShownStep(Then(story, w), n)) <==> n == 1 && TurnsBack(story, w)
  {
    StoryShows(story, n);
    StoryShows(story, 2);
    StoryInPlace(story);
    if w.StepBegins? {
      BeginShows(story, w.stage, n);
    } else if w.StepEnds? {
      EndShows(story, w, n);
    } else if IsFailure(w) {
      FailureShowsInStepOne(story, w.row.loaded, n);
    } else {
      assert ViewAfter(Then(story, w)).steps == ViewAfter(story).steps;
    }
  }

  // ---------- Over a history ----------

  /** What a history shows of a step never goes back. */
  ghost predicate OnlyForward(views: seq<View>, n: nat) {
    forall i, j :: 0 <= i <= j < |views| ==> StepAdvances(StepOf(views[i].steps, n), StepOf(views[j].steps, n))
  }

  lemma ForwardAppend(views: seq<View>, v: View, n: nat)
    requires views != []
    ensures var last := StepOf(views[|views| - 1].steps, n);
            OnlyForward(views + [v], n) <==> OnlyForward(views, n) && StepAdvances(last, StepOf(v.steps, n))
  {
    var more := views + [v];
    var last, now := StepOf(views[|views| - 1].steps, n), StepOf(v.steps, n);
    if OnlyForward(views, n) && StepAdvances(last, now) {
      forall i, j | 0 <= i <= j < |more| ensures StepAdvances(StepOf(more[i].steps, n), StepOf(more[j].steps, n)) {
        if i < j == |views| { assert StepAdvances(StepOf(views[i].steps, n), last); }
      }
    }
    if OnlyForward(more, n) {
      assert StepAdvances(StepOf(more[|views| - 1].steps, n), StepOf(more[|views|].steps, n));
      forall i, j | 0 <= i <= j < |views| ensures StepAdvances(StepOf(views[i].steps, n), StepOf(views[j].steps, n)) {
        assert StepAdvances(StepOf(more[i].steps, n), StepOf(more[j].steps, n));
      }
    }
  }

  /** A run's history never takes a step back, except step 1, and that if and only if one of the two commits
      was made. */
  lemma {:induction false} OnlyForwardIff(story: Story, n: nat)
    requires IsStory(story) && 1 <= n <= 7
    ensures OnlyForward(Views(story), n) <==> n != 1 || !TurnedBack(story)
  {
    if story.Then? {
      OnlyForwardIff(story.before, n);
      StepGoesBackIff(story.before, story.w, n);
      ForwardAppend(Views(story.before), ViewAfter(story), n);
    }
  }

  /** Without a failed setup no step goes back. */
  lemma {:induction false} NoFailureNoTurn(story: Story)
    requires IsStory(story) && RowOf(story).setupFailures == 0
    ensures !TurnedBack(story)
  {
    if story.Then? {
      NoFailureNoTurn(story.before);
      StoryShows(story.before, 1);
    }
  }

  /** A final status of a step other than the first stays. */
  lemma FinalStatusStays(story: Story, later: Story, n: nat)
    requires IsStory(later) && Views(story) <= Views(later) && 2 <= n <= 7
    requires ShownStep(story, n) == Succeeded || ShownStep(story, n) == Skipped || ShownStep(story, n) == Errored
    ensures ShownStep(later, n) == ShownStep(story, n)
  {
    OnlyForwardIff(later, n);
    var i, j := |Views(story)| - 1, |Views(later)| - 1;
    assert Views(later)[i] == ViewAfter(story) && Views(later)[j] == ViewAfter(later);
    assert StepAdvances(StepOf(Views(later)[i].steps, n), StepOf(Views(later)[j].steps, n));
  }
}
