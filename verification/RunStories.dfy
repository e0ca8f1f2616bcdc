/** Everything that is ever committed to one run: its claim, the steps of the execution that claimed it,
    and the marks of deliveries whose storage setup failed; and what other sessions see of it. */
module RunStories {
  import opened Wrappers
  import opened Dispatch
  import opened Events
  import opened RunViews

  /** One commit: a write to the run row (a failed setup also adds its failed "File Received" row); the
      beginning of a step; its end, with its final status and the event rows that the commit inserts; or
      the move of the file. */
  datatype Write =
    | OnRow(row: RowWrite)
    | StepBegins(stage: Stage)
    | StepEnds(stage: Stage, status: StepStatus, added: seq<Row>)
    | FileMoves(stage: Stage)

  /** All commits to a run since its creation. */
  datatype Story = Start | Then(before: Story, w: Write)

  const START := View(Pending, [], 0, [], [])

  predicate IsFailure(w: Write) {
    w.OnRow? && w.row.Fails?
  }

  // ---------- What a commit shows ----------

  /** The rows after the step in progress, which is row `i`, is finished. */
  function Finished(steps: seq<StepRow>, i: Option<nat>, status: StepStatus): seq<StepRow> {
    if i.Some? && i.value < |steps| then steps[i.value := steps[i.value].(status := status)] else steps
  }

  function StepsAfter(v: View, running: Option<nat>, w: Write): seq<StepRow> {
    match w
    case OnRow(row) => if row.Fails? then v.steps + [StepRow(1, Errored)] else v.steps
    case StepBegins(g) => v.steps + [StepRow(if g.Begun? then g.step else 7, Running)]
    case StepEnds(_, status, _) => Finished(v.steps, running, status)
    case FileMoves(_) => v.steps
  }

  /** The view after a commit, when row `running` is in progress. */
  function Shown(v: View, running: Option<nat>, w: Write): View {
    View(if w.OnRow? then Written(Run(v.status, 0), w.row).status else v.status,
         StepsAfter(v, running, w),
         if w.StepEnds? && w.stage == Ended(6) then |w.added| else v.count,
         if w.StepEnds? then v.saved + w.added else v.saved,
         if w.FileMoves? then v.moves + [if w.stage.Won? then ToProcessed else ToFailed] else v.moves)
  }

  function ViewAfter(story: Story): View {
    match story
    case Start => START
    case Then(before, w) => Shown(ViewAfter(before), RunningRow(before), w)
  }

  /** The row of the step that is in progress. */
  function RunningRow(story: Story): Option<nat> {
    match story
    case Start => None
    case Then(before, w) =>
      if w.StepBegins? then Some(|ViewAfter(before).steps|) else if w.StepEnds? then None else RunningRow(before)
  }

  /** The committed history. */
  function Views(story: Story): (views: seq<View>)
    ensures views != [] && views[|views| - 1] == ViewAfter(story)
  {
    match story
    case Start => [START]
    case Then(before, w) => Views(before) + [ViewAfter(story)]
  }

  /** The story up to its `i`-th commit. */
  function Until(story: Story, i: nat): Story
    requires i < |Views(story)|
  {
    match story
    case Start => story
    case Then(before, _) => if i < |Views(before)| then Until(before, i) else story
  }

  function SetupFailures(story: Story): nat {
    match story
    case Start => 0
    case Then(before, w) => SetupFailures(before) + if IsFailure(w) then 1 else 0
  }

  /** How far the execution that claimed the run has got; none before the claim. */
  function StageOf(story: Story): Option<Stage> {
    match story
    case Start => None
    case Then(before, w) =>
      match w
      case StepBegins(g) => Some(g)
      case StepEnds(g, _, _) => Some(g)
      case FileMoves(g) => Some(g)
      case OnRow(row) =>
        if row == Claims && ViewAfter(before).status == Pending then Some(Claimed)
        else if row == Finishes(true) then Some(Won(false))
        else if row == Finishes(false) && StageOf(before).Some? && StageOf(before).value.Told?
        then Some(Lost(StageOf(before).value.step, false))
        else StageOf(before)
  }

  /** The run row, with the count of failed setups that the dispatch protocol keeps. */
  function RowOf(story: Story): Run {
    Run(ViewAfter(story).status, SetupFailures(story))
  }

  // ---------- Which commits are possible ----------

  /** The run has had this status. */
  predicate Had(story: Story, status: RunStatus) {
    ViewAfter(story).status == status || (story.Then? && Had(story.before, status))
  }

  /** The claimant has committed its start. */
  predicate Opened(story: Story) {
    story.Then? && ((story.w.OnRow? && story.w.row.Begins?) || Opened(story.before))
  }

  /** A failed setup loaded a status that the run has had; the claimant starts once, having loaded
      IN_PROGRESS unless a setup had failed; and then the execution commits its stages in order. */
  predicate Can(story: Story, w: Write) {
    var g := StageOf(story);
    match w
    case OnRow(row) =>
      (match row
       case Untouched => false
       case Fails(loaded) => Had(story, loaded)
       case Claims => true
       case Begins(loaded) =>
         && g == Some(Claimed) && !Opened(story)
         && Had(story, loaded) && (loaded == InProgress || SetupFailures(story) > 0)
       case Finishes(ok) => g.Some? && if ok then g.value == Ended(7) else g.value.Told?)
    case StepBegins(g') =>
      && g.Some? && NextStage(g.value, g') && (g'.Begun? || g'.Telling?)
      && (g' == Begun(1) ==> Opened(story))
    case StepEnds(g', status, added) =>
      && g.Some? && NextStage(g.value, g') && (g.value.Begun? || g.value.Telling?)
      && MayFinish(g.value, g', status)
      && (g' == Ended(6) || added == [])
    case FileMoves(g') => g.Some? && NextStage(g.value, g') && (g.value.Won? || g.value.Lost?)
  }

  predicate IsStory(story: Story) {
    match story
    case Start => true
    case Then(before, w) => IsStory(before) && Can(before, w)
  }

  /** The history up to a commit is that of the story up to it. */
  lemma {:induction false} UntilShows(story: Story, i: nat)
    requires IsStory(story) && i < |Views(story)|
    ensures IsStory(Until(story, i)) && ViewAfter(Until(story, i)) == Views(story)[i]
  {
    if story.Then? && i < |Views(story.before)| { UntilShows(story.before, i); }
  }

  // ---------- The row ----------

  /** The commits of a story that write the row. */
  function RowWrites(story: Story): seq<RowWrite> {
    match story
    case Start => []
    case Then(before, w) => RowWrites(before) + if w.OnRow? then [w.row] else []
  }

  function AfterWrites(run: Run, writes: seq<RowWrite>): Run {
    if writes == [] then run else Written(AfterWrites(run, writes[..|writes| - 1]), writes[|writes| - 1])
  }

  lemma WrittenParts(status: RunStatus, n: nat, w: RowWrite)
    ensures Written(Run(status, n), w) == Run(Written(Run(status, 0), w).status, n + if w.Fails? then 1 else 0)
  {
  }

  /** The row of a story is what its row writes make of a PENDING row: the row of the dispatch protocol,
      whose every action makes one such write or none. */
  lemma {:induction false} RowIsWritten(story: Story)
    ensures RowOf(story) == AfterWrites(Run(Pending, 0), RowWrites(story))
  {
    match story
    case Start =>
    case Then(before, w) =>
      RowIsWritten(before);
      if w.OnRow? {
        assert RowWrites(story)[..|RowWrites(before)|] == RowWrites(before);
        WrittenParts(ViewAfter(before).status, SetupFailures(before), w.row);
      } else {
        assert RowWrites(story) == RowWrites(before);
      }
  }

  // ---------- Without failed setups ----------

  /** What a run and its claimant show while no setup has failed. */
  predicate Plain(story: Story) {
    var v, g := ViewAfter(story), StageOf(story);
    if g == None then v == START
    else
      && MarkOk(MarkOf(v, g.value)) && MarkView(MarkOf(v, g.value)) == v
      && (g.value.Begun? || g.value.Telling? ==> RunningRow(story) == Some(|v.steps| - 1))
  }

  lemma PlainGrammar(story: Story)
    requires Plain(story)
    ensures Grammar(ViewAfter(story))
  {
    if StageOf(story).Some? {
      var m := MarkOf(ViewAfter(story), StageOf(story).value);
      StageGrammar(m.stage, m.skipped, m.own);
    }
  }

  /** Finishing the newest row, which is the one in progress. */
  lemma FinishIsEdit(v: View, g: Stage, w: Write)
    requires v.steps != [] && v.steps[|v.steps| - 1].status == Running
    requires w.StepEnds? && NextStage(g, w.stage) && (g.Begun? || g.Telling?) && MayFinish(g, w.stage, w.status)
    requires w.stage == Ended(6) || w.added == []
    ensures Edit(v, g, Shown(v, Some(|v.steps| - 1), w), w.stage)
  {
    assert w.added == [] ==> v.saved + w.added == v.saved;
  }

  lemma InProgressLast(v: View, g: Stage)
    requires MarkOk(MarkOf(v, g)) && MarkView(MarkOf(v, g)) == v && (g.Begun? || g.Telling?)
    ensures v.steps != [] && v.steps[|v.steps| - 1].status == Running
  {
  }

  /** A commit of an execution that no failed setup has touched is an edit of its view. */
  lemma StepIsEdit(story: Story, w: Write)
    requires Plain(story) && Can(story, w) && !w.OnRow?
    ensures Edit(ViewAfter(story), StageOf(story).value, Shown(ViewAfter(story), RunningRow(story), w), w.stage)
  {
    var v, g := ViewAfter(story), StageOf(story).value;
    if w.StepEnds? {
      InProgressLast(v, g);
      FinishIsEdit(v, g, w);
    }
  }

  lemma PlainEdit(story: Story, w: Write, g': Stage)
    requires Plain(story) && StageOf(story).Some? && StageOf(Then(story, w)) == Some(g')
    requires Edit(ViewAfter(story), StageOf(story).value, ViewAfter(Then(story, w)), g')
    requires g'.Begun? || g'.Telling? ==> w.StepBegins?
    ensures Plain(Then(story, w)) && Advances(ViewAfter(story), ViewAfter(Then(story, w)))
  {
    var v, g, v' := ViewAfter(story), StageOf(story).value, ViewAfter(Then(story, w));
    EditKeepsMark(v, g, v', g');
    MarkAdvances(MarkOf(v, g), MarkOf(v', g'));
  }

  lemma PlainFinish(story: Story, ok: bool)
    requires Plain(story) && Can(story, OnRow(Finishes(ok)))
    ensures var more := Then(story, OnRow(Finishes(ok)));
            Plain(more) && Advances(ViewAfter(story), ViewAfter(more))
  {
    PlainEdit(story, OnRow(Finishes(ok)), if ok then Won(false) else Lost(StageOf(story).value.step, false));
  }

  /** A claim shows IN_PROGRESS if the run was PENDING, and nothing otherwise; the start shows nothing. */
  lemma PlainStart(story: Story, w: Write)
    requires Plain(story) && Can(story, w) && SetupFailures(story) == 0
    requires w.OnRow? && (w.row.Claims? || w.row.Begins?)
    ensures Plain(Then(story, w)) && Advances(ViewAfter(story), ViewAfter(Then(story, w)))
  {
    if StageOf(story).Some? { assert ViewAfter(story).status != Pending; }
  }

  lemma PlainStep(story: Story, w: Write)
    requires Plain(story) && SetupFailures(story) == 0 && Can(story, w) && !IsFailure(w)
    ensures Plain(Then(story, w)) && Advances(ViewAfter(story), ViewAfter(Then(story, w)))
  {
    if !w.OnRow? {
      StepIsEdit(story, w);
      PlainEdit(story, w, w.stage);
    } else if w.row.Finishes? {
      PlainFinish(story, w.row.ok);
    } else {
      PlainStart(story, w);
    }
  }

  lemma LegalAppend(views: seq<View>, v: View)
    requires views != []
    ensures Legal(views + [v]) <==> Legal(views) && Grammar(v) && Advances(views[|views| - 1], v)
  {
    var more := views + [v];
    assert more[|views|] == v && more[|views| - 1] == views[|views| - 1];
    forall i | 0 <= i < |views| ensures more[i] == views[i] { }
  }

  lemma {:induction false} PlainHistory(story: Story)
    requires IsStory(story) && SetupFailures(story) == 0
    ensures Plain(story) && Legal(Views(story))
  {
    match story
    case Start => PlainGrammar(story);
    case Then(before, w) =>
      PlainHistory(before);
      PlainStep(before, w);
      PlainGrammar(story);
      LegalAppend(Views(before), ViewAfter(story));
  }

  // ---------- With a failed setup ----------

  /** The row that a failed setup adds breaks the grammar: it comes after rows with other numbers, or it
      is the only one, of a run marked FAILED. */
  lemma AddedRowBreaksGrammar(v: View, loaded: RunStatus)
    requires Grammar(v) && (loaded == Failed ==> v.status == Failed)
    ensures !Grammar(Shown(v, None, OnRow(Fails(loaded))))
  {
    var v' := Shown(v, None, OnRow(Fails(loaded)));
    var last := v'.steps[|v.steps|];
    assert last == StepRow(1, Errored);
    if v.steps == [] { assert v'.status == Failed; }
  }

  /** In a legal history FAILED is final. */
  lemma {:induction false} FailedIsFinal(story: Story)
    requires Legal(Views(story)) && Had(story, Failed)
    ensures ViewAfter(story).status == Failed
  {
    if story.Then? && Had(story.before, Failed) {
      LegalAppend(Views(story.before), ViewAfter(story));
      FailedIsFinal(story.before);
    }
  }

  lemma FirstFailureBreaks(story: Story, loaded: RunStatus)
    requires Legal(Views(story)) && Can(story, OnRow(Fails(loaded)))
    ensures !Grammar(ViewAfter(Then(story, OnRow(Fails(loaded)))))
  {
    if loaded == Failed { FailedIsFinal(story); }
    var views := Views(story);
    assert Grammar(views[|views| - 1]);
    AddedRowBreaksGrammar(ViewAfter(story), loaded);
  }

  lemma {:induction false} FailureIsIllegal(story: Story)
    requires IsStory(story) && SetupFailures(story) > 0
    ensures !Legal(Views(story))
  {
    var before, w := story.before, story.w;
    LegalAppend(Views(before), ViewAfter(story));
    if SetupFailures(before) > 0 {
      FailureIsIllegal(before);
    } else if Legal(Views(before)) {
      FirstFailureBreaks(before, w.row.loaded);
    }
  }

  /** The committed history of a run fits the grammar and only moves forward if and only if storage setup
      has never failed for it. */
  lemma LegalIff(story: Story)
    requires IsStory(story)
    ensures Legal(Views(story)) <==> RowOf(story).setupFailures == 0
  {
    if SetupFailures(story) == 0 { PlainHistory(story); } else { FailureIsIllegal(story); }
  }

  // ---------- What every story keeps ----------

  /** The execution's own commits, without the marks of failed setups. */
  function Own(story: Story): seq<Write> {
    match story
    case Start => []
    case Then(before, w) => Own(before) + if IsFailure(w) then [] else [w]
  }

  /** A failed setup leaves the execution where it is, with the same step in progress and the same
      possible commits. */
  lemma FailureLeavesExecution(story: Story, loaded: RunStatus)
    ensures var more := Then(story, OnRow(Fails(loaded)));
            && StageOf(more) == StageOf(story) && Own(more) == Own(story)
            && RunningRow(more) == RunningRow(story) && Opened(more) == Opened(story)
            && forall w :: Can(story, w) && !IsFailure(w) ==> Can(more, w)
  {
  }

  /** The count is the number of rows inserted, there are none before step 6 has ended, a run that has
      been claimed is not PENDING, and while the execution is in a step that step has a row. */
  lemma {:induction false} StoryFacts(story: Story)
    requires IsStory(story)
    ensures var v, g := ViewAfter(story), StageOf(story);
            && v.count == |v.saved|
            && (g == None || !HasSaved(g.value) ==> v.saved == [])
            && (g.Some? ==> v.status != Pending)
            && (RunningRow(story).Some? ==> RunningRow(story).value < |v.steps|)
            && (g.Some? && (g.value.Begun? || g.value.Telling?) ==> RunningRow(story).Some?)
  {
    if story.Then? { StoryFacts(story.before); }
  }

  /** The file is moved once at most, by the execution's last commit. */
  lemma {:induction false} MovesShown(story: Story)
    requires IsStory(story)
    ensures ViewAfter(story).moves ==
            match StageOf(story) {
              case Some(Won(moved)) => if moved then [ToProcessed] else []
              case Some(Lost(_, moved)) => if moved then [ToFailed] else []
              case _ => []
            }
  {
    if story.Then? {
      MovesShown(story.before);
      StoryFacts(story.before);
    }
  }

  // ---------- Where failed setups show ----------

  /** A run whose storage could not be set up, or whose task could not be scheduled, is FAILED with one
      row: there never is a row of step 7. */
  lemma SetupFailureShowsNoNotify(story: Story)
    requires story == Then(Start, OnRow(Fails(Pending)))
    ensures IsStory(story) && ViewAfter(story) == View(Failed, [StepRow(1, Errored)], 0, [], [])
    ensures StepOf(ViewAfter(story).steps, 7) == Waiting
  {
    FailureShowsInStepOne(Start, Pending, 7);
    assert ViewAfter(Start) == START && Had(Start, Pending) && IsStory(Start);
    assert [] + [StepRow(1, Errored)] == [StepRow(1, Errored)];
  }

  /** The mark of a failed setup shows step 1 as failed, whatever it was, and no other step changed. */
  lemma FailureShowsInStepOne(story: Story, loaded: RunStatus, n: nat)
    ensures StepOf(ViewAfter(Then(story, OnRow(Fails(loaded)))).steps, n) ==
            if n == 1 then Errored else StepOf(ViewAfter(story).steps, n)
  {
    StepOfLast(ViewAfter(story).steps, StepRow(1, Errored), n);
  }

  // ---------- Steps that succeed ----------

  /** A run that has just been claimed and started. */
  const OPENED: Story := Then(Then(Start, OnRow(Claims)), OnRow(Begins(InProgress)))

  /** Steps 1 to `k` succeed, without events. */
  function Smooth(story: Story, k: nat): Story {
    if k == 0 then story
    else Then(Then(Smooth(story, k - 1), StepBegins(Begun(k))), StepEnds(Ended(k), Succeeded, []))
  }

  lemma SmoothStep(story: Story, k: nat)
    requires 0 < k <= 7 && StageOf(story) == Some(if k == 1 then Claimed else Ended(k - 1)) && Opened(story)
    ensures var begun := Then(story, StepBegins(Begun(k)));
            var ended := Then(begun, StepEnds(Ended(k), Succeeded, []));
            && Can(story, begun.w) && Can(begun, ended.w)
            && StageOf(ended) == Some(Ended(k)) && Opened(ended) && RowOf(ended) == RowOf(story)
            && ViewAfter(ended).steps == ViewAfter(story).steps + [StepRow(k, Succeeded)]
  {
    var steps, begun := ViewAfter(story).steps, Then(story, StepBegins(Begun(k)));
    assert StageOf(begun) == Some(Begun(k)) && Opened(begun) && RowOf(begun) == RowOf(story);
    assert (steps + [StepRow(k, Running)])[|steps| := StepRow(k, Succeeded)] == steps + [StepRow(k, Succeeded)];
  }

  lemma {:induction false} SmoothRun(story: Story, k: nat)
    requires IsStory(story) && StageOf(story) == Some(Claimed) && Opened(story) && k <= 7
    ensures IsStory(Smooth(story, k)) && Opened(Smooth(story, k)) && RowOf(Smooth(story, k)) == RowOf(story)
    ensures StageOf(Smooth(story, k)) == Some(if k == 0 then Claimed else Ended(k))
    ensures ViewAfter(Smooth(story, k)).steps == ViewAfter(story).steps + Passed(k, false)
  {
    if k > 0 {
      hide Can, ViewAfter, StageOf, RowOf, Opened, SetupFailures;
      SmoothRun(story, k - 1);
      SmoothStep(Smooth(story, k - 1), k);
      assert Passed(k, false) == Passed(k - 1, false) + [StepRow(k, Succeeded)];
    }
  }

  lemma OpenedRun()
    ensures IsStory(OPENED) && StageOf(OPENED) == Some(Claimed) && Opened(OPENED)
    ensures ViewAfter(OPENED) == View(InProgress, [], 0, [], []) && SetupFailures(OPENED) == 0
  {
    assert Had(Then(Start, OnRow(Claims)), InProgress);
  }

  /** So when a redelivery's setup fails while the claimant is at work, step 1 goes from success to
      failed. */
  lemma StepMayGoBack() returns (story: Story, w: Write)
    ensures IsStory(story) && Can(story, w)
    ensures StepOf(ViewAfter(story).steps, 1) == Succeeded
    ensures StepOf(ViewAfter(Then(story, w)).steps, 1) == Errored
    ensures !StepAdvances(Succeeded, Errored)
  {
    story, w := Smooth(OPENED, 1), OnRow(Fails(InProgress));
    OpenedRun();
    SmoothRun(OPENED, 1);
    StepOfPassed(1, false, 1);
    FailureShowsInStepOne(story, InProgress, 1);
  }
}
