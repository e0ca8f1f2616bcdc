/** What other sessions can see of one run, the grammar of those views, and how one view may
    follow another. */
module RunViews {
  import opened Dispatch
  import opened Events

  /** A step's status, as the progress page names it: pending (no row yet), in_progress, success,
      failed, skipped. */
  datatype StepStatus = Waiting | Running | Succeeded | Errored | Skipped

  datatype StepRow = StepRow(number: nat, status: StepStatus)

  datatype Destination = ToProcessed | ToFailed

  /** One committed state of a run: its status and step rows, its stored event count, the event rows
      it has inserted, and where its file has been moved. */
  datatype View = View(status: RunStatus, steps: seq<StepRow>, count: nat, saved: seq<Row>, moves: seq<Destination>)

  const STEP_NAMES: seq<string> := [
    "File Received", "Extract", "Filter by Date", "Call Gemini LLM", "Parse LLM Response",
    "Deduplicate & Save", "Notify"]

  // ---------- The grammar ----------

  /** Rows 1..n in order, where only the newest row may still be running or have failed, only step
      2 may be skipped, and only steps 1, 2, 4 and 5 may fail. */
  predicate Straight(steps: seq<StepRow>) {
    && |steps| <= 7
    && forall i :: 0 <= i < |steps| ==>
         && steps[i].number == i + 1
         && steps[i].status != Waiting
         && (steps[i].status == Running || steps[i].status == Errored ==> i == |steps| - 1)
         && (steps[i].status == Skipped ==> i == 1)
         && (steps[i].status == Errored ==> i == 0 || i == 1 || i == 3 || i == 4)
  }

  predicate EndsErrored(steps: seq<StepRow>) {
    steps != [] && steps[|steps| - 1].status == Errored
  }

  /** Rows 1..k with step k failed, then the row of step 7. */
  predicate Broken(steps: seq<StepRow>) {
    && |steps| >= 2
    && Straight(steps[..|steps| - 1])
    && EndsErrored(steps[..|steps| - 1])
    && steps[|steps| - 1].number == 7
    && (steps[|steps| - 1].status == Running || steps[|steps| - 1].status == Succeeded)
  }

  predicate AllFinished(steps: seq<StepRow>) {
    forall i :: 0 <= i < |steps| ==> steps[i].status == Succeeded || steps[i].status == Skipped
  }

  /** The grammar of the states that a run and the execution that claimed it commit, as long as storage
      setup fails for no delivery of the run. */
  predicate Grammar(v: View) {
    && (Straight(v.steps) || Broken(v.steps))
    && (v.status == Pending ==> v.steps == [] && v.saved == [] && v.moves == [])
    && (v.status == Success ==> Straight(v.steps) && |v.steps| == 7 && AllFinished(v.steps))
    && (v.status == Failed ==> Broken(v.steps) && v.steps[|v.steps| - 1].status == Succeeded)
    && v.count == |v.saved|
    && (v.saved != [] ==> Straight(v.steps) && |v.steps| >= 6 && AllFinished(v.steps[..6]))
    && (v.moves == [] || (v.status == Success && v.moves == [ToProcessed])
                      || (v.status == Failed && v.moves == [ToFailed]))
  }

  // ---------- How views follow each other ----------

  /** The status recorded for a step, as a dictionary built from the rows reports it. */
  function StepOf(steps: seq<StepRow>, n: nat): StepStatus {
    if steps == [] then Waiting
    else if steps[|steps| - 1].number == n then steps[|steps| - 1].status
    else StepOf(steps[..|steps| - 1], n)
  }

  function StepRank(s: StepStatus): nat {
    match s
    case Waiting => 0
    case Running => 1
    case _ => 2
  }

  /** A step moves pending, in_progress, then one final value, and never back. */
  predicate StepAdvances(s: StepStatus, s': StepStatus) {
    s == s' || StepRank(s) < StepRank(s')
  }

  predicate RunAdvances(r: RunStatus, r': RunStatus) {
    r == r' || r == Pending || (r == InProgress && r' != Pending)
  }

  predicate StepsAdvance(steps: seq<StepRow>, steps': seq<StepRow>) {
    forall n: nat {:trigger StepOf(steps, n)} {:trigger StepOf(steps', n)} :: 1 <= n <= 7 ==>
      StepAdvances(StepOf(steps, n), StepOf(steps', n))
  }

  predicate Advances(v: View, v': View) {
    && RunAdvances(v.status, v'.status)
    && StepsAdvance(v.steps, v'.steps)
    && v.saved <= v'.saved
    && v.moves <= v'.moves
  }

  /** A history of committed states: each fits the grammar and follows from the one before. */
  predicate Legal(history: seq<View>) {
    && (forall i :: 0 <= i < |history| ==> Grammar(history[i]))
    && (forall i :: 0 < i < |history| ==> Advances(history[i - 1], history[i]))
  }

  lemma AdvancesTransitively(u: View, v: View, w: View)
    requires Advances(u, v) && Advances(v, w)
    ensures Advances(u, w)
  {
    forall n: nat | 1 <= n <= 7 ensures StepAdvances(StepOf(u.steps, n), StepOf(w.steps, n)) {
      assert StepAdvances(StepOf(u.steps, n), StepOf(v.steps, n));
      assert StepAdvances(StepOf(v.steps, n), StepOf(w.steps, n));
    }
  }

  /** In a legal history later states follow from all earlier ones. */
  lemma {:induction false} LegalAdvances(history: seq<View>, i: nat, j: nat)
    requires Legal(history) && i <= j < |history|
    ensures Advances(history[i], history[j])
    decreases j - i
  {
    if i < j {
      LegalAdvances(history, i, j - 1);
      AdvancesTransitively(history[i], history[j - 1], history[j]);
    }
  }

  // ---------- The states of one execution ----------

  /** How far an execution has got. */
  datatype Stage =
    | Claimed
    | Begun(step: nat)
    | Ended(step: nat)
    | Broke(step: nat)
    | Telling(step: nat)
    | Told(step: nat)
    | Lost(step: nat, moved: bool)
    | Won(moved: bool)

  predicate MayFail(k: nat) {
    k == 1 || k == 2 || k == 4 || k == 5
  }

  predicate ValidStage(g: Stage) {
    match g
    case Claimed => true
    case Begun(k) => 1 <= k <= 7
    case Ended(k) => 1 <= k <= 7
    case Broke(k) => MayFail(k)
    case Telling(k) => MayFail(k)
    case Told(k) => MayFail(k)
    case Lost(k, _) => MayFail(k)
    case Won(_) => true
  }

  /** Rows 1..n, all finished. */
  function Passed(n: nat, skipped: bool): (rows: seq<StepRow>)
    ensures |rows| == n
  {
    seq(n, i requires 0 <= i < n => StepRow(i + 1, if i == 1 && skipped then Skipped else Succeeded))
  }

  function Rows(g: Stage, skipped: bool): seq<StepRow>
    requires ValidStage(g)
  {
    match g
    case Claimed => []
    case Begun(k) => Passed(k - 1, skipped) + [StepRow(k, Running)]
    case Ended(k) => Passed(k, skipped)
    case Broke(k) => Passed(k - 1, skipped) + [StepRow(k, Errored)]
    case Telling(k) => Passed(k - 1, skipped) + [StepRow(k, Errored), StepRow(7, Running)]
    case Told(k) => Passed(k - 1, skipped) + [StepRow(k, Errored), StepRow(7, Succeeded)]
    case Lost(k, _) => Passed(k - 1, skipped) + [StepRow(k, Errored), StepRow(7, Succeeded)]
    case Won(_) => Passed(7, skipped)
  }

  /** The stages in which this run's events are committed. */
  predicate HasSaved(g: Stage) {
    g == Ended(6) || g == Begun(7) || g == Ended(7) || g.Won?
  }

  function StageView(g: Stage, skipped: bool, saved: seq<Row>): View
    requires ValidStage(g)
  {
    View(if g.Won? then Success else if g.Lost? then Failed else InProgress,
         Rows(g, skipped),
         if HasSaved(g) then |saved| else 0,
         if HasSaved(g) then saved else [],
         if g == Won(true) then [ToProcessed] else if g.Lost? && g.moved then [ToFailed] else [])
  }

  /** The order in which an execution goes through its stages. */
  predicate NextStage(g: Stage, g': Stage) {
    match g
    case Claimed => g' == Begun(1)
    case Begun(k) => g' == Ended(k) || (MayFail(k) && g' == Broke(k))
    case Ended(k) => if k < 7 then g' == Begun(k + 1) else g' == Won(false)
    case Broke(k) => g' == Telling(k)
    case Telling(k) => g' == Told(k)
    case Told(k) => g' == Lost(k, false)
    case Lost(k, moved) => !moved && g' == Lost(k, true)
    case Won(moved) => !moved && g' == Won(true)
  }

  lemma StageRowsStraight(g: Stage, skipped: bool)
    requires ValidStage(g) && (g.Claimed? || g.Begun? || g.Ended? || g.Broke? || g.Won?)
    ensures Straight(Rows(g, skipped))
  {
  }

  lemma StageRowsBroken(g: Stage, skipped: bool)
    requires ValidStage(g) && (g.Telling? || g.Told? || g.Lost?)
    ensures Broken(Rows(g, skipped))
  {
    var rows := Rows(g, skipped);
    StageRowsStraight(Broke(g.step), skipped);
    assert rows[..|rows| - 1] == Rows(Broke(g.step), skipped);
  }

  lemma SavedStageGrammar(g: Stage, skipped: bool, saved: seq<Row>)
    requires HasSaved(g)
    ensures Grammar(StageView(g, skipped, saved))
  {
    var v := StageView(g, skipped, saved);
    StageRowsStraight(g, skipped);
    assert v.steps[..6] == Passed(6, skipped);
    assert AllFinished(v.steps[..6]);
    if g.Won? { assert AllFinished(v.steps); }
  }

  lemma BrokenStageGrammar(g: Stage, skipped: bool, saved: seq<Row>)
    requires ValidStage(g) && (g.Telling? || g.Told? || g.Lost?)
    ensures Grammar(StageView(g, skipped, saved))
  {
    var v := StageView(g, skipped, saved);
    StageRowsBroken(g, skipped);
    assert v.steps[|v.steps| - 1].status == if g.Telling? then Running else Succeeded;
    assert v.status != Success && v.count == 0 && v.saved == [];
  }

  /** Every stage fits the grammar. */
  lemma StageGrammar(g: Stage, skipped: bool, saved: seq<Row>)
    requires ValidStage(g)
    ensures Grammar(StageView(g, skipped, saved))
  {
    if HasSaved(g) {
      SavedStageGrammar(g, skipped, saved);
    } else if g.Telling? || g.Told? || g.Lost? {
      BrokenStageGrammar(g, skipped, saved);
    } else {
      StageRowsStraight(g, skipped);
    }
  }

  lemma {:induction false} StepOfPassed(k: nat, skipped: bool, n: nat)
    requires 1 <= n
    ensures StepOf(Passed(k, skipped), n) ==
            if n <= k then (if n == 2 && skipped then Skipped else Succeeded) else Waiting
  {
    if k > 0 {
      assert Passed(k, skipped)[..k - 1] == Passed(k - 1, skipped);
      StepOfPassed(k - 1, skipped, n);
    }
  }

  lemma StepOfLast(steps: seq<StepRow>, row: StepRow, n: nat)
    ensures StepOf(steps + [row], n) == if row.number == n then row.status else StepOf(steps, n)
  {
    assert (steps + [row])[..|steps|] == steps;
  }

  /** The status each stage shows for each step. */
  function StepAt(g: Stage, skipped: bool, n: nat): StepStatus
    requires ValidStage(g)
  {
    var good := if n == 2 && skipped then Skipped else Succeeded;
    match g
    case Claimed => Waiting
    case Begun(k) => if n < k then good else if n == k then Running else Waiting
    case Ended(k) => if n <= k then good else Waiting
    case Broke(k) => if n < k then good else if n == k then Errored else Waiting
    case Telling(k) => if n == 7 then Running else if n < k then good else if n == k then Errored else Waiting
    case Told(k) => if n == 7 then Succeeded else if n < k then good else if n == k then Errored else Waiting
    case Lost(k, _) => if n == 7 then Succeeded else if n < k then good else if n == k then Errored else Waiting
    case Won(_) => good
  }

  lemma StraightSteps(g: Stage, skipped: bool, n: nat)
    requires ValidStage(g) && 1 <= n <= 7 && (g.Claimed? || g.Begun? || g.Ended? || g.Broke? || g.Won?)
    ensures StepOf(Rows(g, skipped), n) == StepAt(g, skipped, n)
  {
    match g
    case Begun(k) =>
      StepOfPassed(k - 1, skipped, n);
      StepOfLast(Passed(k - 1, skipped), StepRow(k, Running), n);
    case Ended(k) => StepOfPassed(k, skipped, n);
    case Won(_) => StepOfPassed(7, skipped, n);
    case Broke(k) =>
      StepOfPassed(k - 1, skipped, n);
      StepOfLast(Passed(k - 1, skipped), StepRow(k, Errored), n);
    case _ =>
  }

  lemma StageSteps(g: Stage, skipped: bool, n: nat)
    requires ValidStage(g) && 1 <= n <= 7
    ensures StepOf(Rows(g, skipped), n) == StepAt(g, skipped, n)
  {
    if g.Telling? || g.Told? || g.Lost? {
      var broke, last := Rows(Broke(g.step), skipped), StepRow(7, if g.Telling? then Running else Succeeded);
      StraightSteps(Broke(g.step), skipped, n);
      StepOfLast(broke, last, n);
      assert Rows(g, skipped) == broke + [last];
    } else {
      StraightSteps(g, skipped, n);
    }
  }

  lemma StepAtAdvances(g: Stage, skipped: bool, g': Stage, skipped': bool, n: nat)
    requires ValidStage(g) && (g' == g || NextStage(g, g')) && 1 <= n <= 7
    requires skipped == skipped' || (g == Begun(2) && g' != g)
    ensures ValidStage(g') && StepAdvances(StepAt(g, skipped, n), StepAt(g', skipped', n))
  {
  }

  /** One stage's view advances to the next one's, or to itself. */
  lemma StageAdvances(g: Stage, skipped: bool, g': Stage, skipped': bool, saved: seq<Row>)
    requires ValidStage(g) && (g' == g || NextStage(g, g'))
    requires skipped == skipped' || (g == Begun(2) && g' != g)
    ensures ValidStage(g')
    ensures Advances(StageView(g, skipped, saved), StageView(g', skipped', saved))
  {
    var steps, steps' := Rows(g, skipped), Rows(g', skipped');
    assert StepsAdvance(steps, steps') by {
      forall n: nat | 1 <= n <= 7 ensures StepAdvances(StepOf(steps, n), StepOf(steps', n)) {
        StageSteps(g, skipped, n);
        StageSteps(g', skipped', n);
        StepAtAdvances(g, skipped, g', skipped', n);
      }
    }
  }

  /** Beginning a step appends its row. */
  lemma BeginRows(g: Stage, g': Stage, skipped: bool)
    requires ValidStage(g) && NextStage(g, g') && (g'.Begun? || g'.Telling?)
    ensures ValidStage(g')
    ensures Rows(g', skipped) == Rows(g, skipped) + [StepRow(if g'.Begun? then g'.step else 7, Running)]
  {
  }

  /** Finishing a step rewrites the newest row. */
  lemma FinishRows(g: Stage, g': Stage, skipped: bool, skipped': bool)
    requires ValidStage(g) && NextStage(g, g') && (g.Begun? || g.Telling?)
    requires skipped' == skipped || g == Begun(2)
    ensures ValidStage(g') && Rows(g, skipped) != []
    ensures var last := |Rows(g, skipped)| - 1;
            var status := if g'.Broke? then Errored else if g == Begun(2) && skipped' then Skipped else Succeeded;
            Rows(g', skipped') == Rows(g, skipped)[last := StepRow(Rows(g, skipped)[last].number, status)]
  {
  }

  // ---------- Marks ----------

  /** One committed state of an execution, by its stage and the rows the run has inserted. */
  datatype Mark = Mark(stage: Stage, skipped: bool, own: seq<Row>)

  predicate MarkOk(m: Mark) {
    ValidStage(m.stage) && (HasSaved(m.stage) || m.own == [])
  }

  function MarkView(m: Mark): View
    requires MarkOk(m)
  {
    StageView(m.stage, m.skipped, m.own)
  }

  /** The next commit repeats the state or reaches the next stage; rows are inserted only by the
      commit that ends step 6, and step 2 decides whether extraction was skipped. */
  predicate NextMark(m: Mark, m': Mark) {
    m' == m ||
    (&& NextStage(m.stage, m'.stage)
     && (m'.skipped == m.skipped || m.stage == Begun(2))
     && (m'.own == m.own || m'.stage == Ended(6)))
  }

  /** What a view becomes when a step begins. */
  lemma BeginMark(m: Mark, to: Stage)
    requires MarkOk(m) && NextStage(m.stage, to) && (to.Begun? || to.Telling?)
    ensures MarkOk(Mark(to, m.skipped, m.own)) && NextMark(m, Mark(to, m.skipped, m.own))
    ensures var v := MarkView(m);
            MarkView(Mark(to, m.skipped, m.own)) ==
              v.(steps := v.steps + [StepRow(if to.Begun? then to.step else 7, Running)])
  {
    BeginRows(m.stage, to, m.skipped);
  }

  function FinishedStatus(from: Stage, to: Stage, skip: bool): StepStatus {
    if to.Broke? then Errored else if from == Begun(2) && skip then Skipped else Succeeded
  }

  /** What a view becomes when a step finishes, with `added` the rows that the commit inserts. */
  lemma FinishMark(m: Mark, to: Stage, skip: bool, added: seq<Row>)
    requires MarkOk(m) && NextStage(m.stage, to) && (m.stage.Begun? || m.stage.Telling?)
    requires skip == m.skipped || m.stage == Begun(2)
    requires added == [] || to == Ended(6)
    ensures MarkOk(Mark(to, skip, m.own + added)) && NextMark(m, Mark(to, skip, m.own + added))
    ensures var v := MarkView(m);
            && v.steps != []
            && var last := |v.steps| - 1;
            MarkView(Mark(to, skip, m.own + added)) ==
              v.(steps := v.steps[last := StepRow(v.steps[last].number, FinishedStatus(m.stage, to, skip))],
                 count := if to == Ended(6) then |added| else v.count,
                 saved := m.own + added)
  {
    FinishRows(m.stage, to, m.skipped, skip);
    assert added == [] ==> m.own + added == m.own;
    assert to == Ended(6) ==> m.own == [];
  }

  /** What a view becomes when the terminal status is committed, and when the file is moved. */
  lemma TerminalMark(m: Mark, to: Stage)
    requires MarkOk(m) && NextStage(m.stage, to) && (m.stage == Ended(7) || m.stage.Told?)
    ensures MarkOk(m.(stage := to)) && NextMark(m, m.(stage := to))
    ensures MarkView(m.(stage := to)) == MarkView(m).(status := if m.stage.Told? then Failed else Success)
  {
  }

  lemma MovedMark(m: Mark, to: Stage)
    requires MarkOk(m) && NextStage(m.stage, to) && (m.stage.Won? || m.stage.Lost?)
    ensures MarkOk(m.(stage := to)) && NextMark(m, m.(stage := to))
    ensures MarkView(m).moves == []
    ensures MarkView(m.(stage := to)) == MarkView(m).(moves := [if m.stage.Won? then ToProcessed else ToFailed])
  {
  }

  lemma MarkAdvances(m: Mark, m': Mark)
    requires MarkOk(m) && MarkOk(m') && NextMark(m, m')
    ensures Advances(MarkView(m), MarkView(m'))
  {
    StageAdvances(m.stage, m.skipped, m'.stage, m'.skipped, m'.own);
  }

  // ---------- Commits as edits ----------

  /** The status with which a step may finish. */
  predicate MayFinish(g: Stage, g': Stage, status: StepStatus) {
    if g'.Broke? then status == Errored
    else status == Succeeded || (g == Begun(2) && status == Skipped)
  }

  /** One commit: the edit it makes to the visible state when it takes stage `g` to `g'`. */
  ghost predicate Edit(v: View, g: Stage, v': View, g': Stage) {
    if g' == g then v' == v
    else
      && NextStage(g, g')
      && (if g'.Begun? then v' == v.(steps := v.steps + [StepRow(g'.step, Running)])
          else if g'.Telling? then v' == v.(steps := v.steps + [StepRow(7, Running)])
          else if g'.Won? && !g'.moved then v' == v.(status := Success)
          else if g'.Lost? && !g'.moved then v' == v.(status := Failed)
          else if g'.Won? then v' == v.(moves := v.moves + [ToProcessed])
          else if g'.Lost? then v' == v.(moves := v.moves + [ToFailed])
          else
            && v.steps != [] && |v'.steps| == |v.steps|
            && MayFinish(g, g', v'.steps[|v.steps| - 1].status)
            && v'.steps == v.steps[|v.steps| - 1 := v.steps[|v.steps| - 1].(status := v'.steps[|v.steps| - 1].status)]
            && v'.status == v.status && v'.moves == v.moves
            && (if g' == Ended(6) then v.saved <= v'.saved && v'.count == |v'.saved| - |v.saved|
                else v'.saved == v.saved && v'.count == v.count))
  }

  function MarkOf(v: View, g: Stage): Mark {
    Mark(g, |v.steps| > 1 && v.steps[1].status == Skipped, v.saved)
  }

  lemma BeginEditKeepsMark(v: View, g: Stage, v': View, g': Stage)
    requires MarkOk(MarkOf(v, g)) && MarkView(MarkOf(v, g)) == v
    requires Edit(v, g, v', g') && g' != g && (g'.Begun? || g'.Telling?)
    ensures MarkOf(v', g') == MarkOf(v, g).(stage := g')
  {
    assert v'.steps[..|v.steps|] == v.steps;
  }

  lemma FinishEditKeepsMark(v: View, g: Stage, v': View, g': Stage)
    requires MarkOk(MarkOf(v, g)) && MarkView(MarkOf(v, g)) == v
    requires Edit(v, g, v', g') && g' != g && (g.Begun? || g.Telling?)
    ensures var m := MarkOf(v, g);
            var skip := MarkOf(v', g').skipped;
            && (skip == m.skipped || g == Begun(2))
            && v'.steps[|v.steps| - 1].status == FinishedStatus(g, g', skip)
  {
    var m := MarkOf(v, g);
    if g != Begun(2) { assert |v.steps| > 2 || |v.steps| == 1 || g == Telling(1); }
  }

  lemma EditKeepsMark(v: View, g: Stage, v': View, g': Stage)
    requires MarkOk(MarkOf(v, g)) && MarkView(MarkOf(v, g)) == v
    requires Edit(v, g, v', g')
    ensures MarkOk(MarkOf(v', g')) && MarkView(MarkOf(v', g')) == v'
    ensures NextMark(MarkOf(v, g), MarkOf(v', g'))
  {
    var m := MarkOf(v, g);
    if g' != g {
      if g'.Begun? || g'.Telling? {
        BeginEditKeepsMark(v, g, v', g');
        BeginMark(m, g');
      } else if g.Begun? || g.Telling? {
        FinishEditKeepsMark(v, g, v', g');
        FinishMark(m, g', MarkOf(v', g').skipped, if g' == Ended(6) then v'.saved[|v.saved|..] else []);
      } else if g == Ended(7) || g.Told? {
        TerminalMark(m, g');
      } else {
        MovedMark(m, g');
      }
    }
  }
}
