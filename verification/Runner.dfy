/** The seven-step pipeline as code over one database session, the storage provider and the
    notifier. The execution may stop at any suspension point; in between, other sessions commit event
    rows, and deliveries of the same run whose storage setup fails mark it. `story` records every
    commit to the run. */
module Runner {
  import opened Wrappers
  import opened Dispatch
  import opened Events
  import opened ConcurrentSave
  import opened RunViews
  import opened RunStories
  import opened StorySteps

  datatype Database = Database(
    status: RunStatus, steps: seq<StepRow>, count: nat, events: seq<Row>, setupFailures: nat)

  /** What this session has written to the run and its steps and not yet committed: the changed fields
      only. */
  datatype Draft = Draft(
    status: Option<RunStatus>,
    begun: Option<StepRow>,
    finished: Option<(nat, StepStatus)>,
    count: Option<nat>)

  const CLEAN := Draft(None, None, None, None)

  datatype NotificationOutcome = NotifiedSuccess | NotifiedNoNewEvents | NotifiedFailed

  datatype Notice = Notice(outcome: NotificationOutcome, newEvents: nat)

  /** What the collaborators of one execution answer: whether the download succeeds; whether the
      bytes are an archive, and if not whether their text holds a NUL; whether the archive yields a
      chat; whether Gemini answers; the events its answer parses to, if it does; and whether the
      settings row that the notify step reads has to be created first. Any other exception has the
      effect of stopping at the next suspension point. */
  datatype World = World(
    downloads: bool,
    isArchive: bool,
    hasNul: bool,
    unpacks: bool,
    answers: bool,
    parsed: Option<seq<Extracted>>,
    createsSettings: bool)

  /** The step at which reading the file fails, if it does. */
  function Unreadable(w: World): Option<nat> {
    if !w.downloads then Some(1)
    else if (if w.isArchive then !w.unpacks else w.hasNul) then Some(2)
    else None
  }

  /** The step at which the model's answer fails, if it does. */
  function Unanswered(w: World): Option<nat> {
    if !w.answers then Some(4)
    else if w.parsed == None then Some(5)
    else None
  }

  /** Where an undisturbed execution ends. */
  function FinalStage(w: World): Stage {
    if Unreadable(w).Some? then Lost(Unreadable(w).value, true)
    else if Unanswered(w).Some? then Lost(Unanswered(w).value, true)
    else Won(true)
  }

  /** What an execution that has come to its end shows, given what its collaborators answered: each step's
      final status, where the file is, and, unless a failed setup has marked the run, its status. Step 1
      may show the mark of a failed setup instead. */
  ghost predicate ShowsAnswers(w: World, v: View, marked: bool) {
    var readable := w.downloads && if w.isArchive then w.unpacks else !w.hasNul;
    var good := readable && w.answers && w.parsed.Some?;
    && (StepOf(v.steps, 1) == (if w.downloads then Succeeded else Errored)
        || (marked && StepOf(v.steps, 1) == Errored))
    && StepOf(v.steps, 2) == (if !w.downloads then Waiting
                              else if !readable then Errored
                              else if w.isArchive then Succeeded else Skipped)
    && StepOf(v.steps, 3) == (if readable then Succeeded else Waiting)
    && StepOf(v.steps, 4) == (if !readable then Waiting else if w.answers then Succeeded else Errored)
    && StepOf(v.steps, 5) == (if !readable || !w.answers then Waiting
                              else if w.parsed.Some? then Succeeded else Errored)
    && StepOf(v.steps, 6) == (if good then Succeeded else Waiting)
    && StepOf(v.steps, 7) == Succeeded
    && v.moves == [if good then ToProcessed else ToFailed]
    && (!marked ==> v.status == if good then Success else Failed)
  }

  /** At its last stage a story shows the answers, if it shows how step 2 ended. */
  lemma LastStageShowsAnswers(w: World, end: Story)
    requires IsStory(end) && StageOf(end) == Some(FinalStage(w))
    requires Unreadable(w) == None ==>
               StepOf(ViewAfter(end).steps, 2) == if w.isArchive then Succeeded else Skipped
    ensures ShowsAnswers(w, ViewAfter(end), SetupFailures(end) > 0)
  {
    MovesShown(end);
    if SetupFailures(end) == 0 { PlainHistory(end); }
    StoryShows(end, 1);
    StoryShows(end, 2);
    StoryShows(end, 3);
    StoryShows(end, 4);
    StoryShows(end, 5);
    StoryShows(end, 6);
    StoryShows(end, 7);
    hide StepOf, IsStory, ViewAfter, StageOf, SetupFailures;
  }

  /** The rows that a run inserted. */
  function OwnRows(rows: seq<Row>, run: nat): (own: seq<Row>)
  {
    if rows == [] then []
    else OwnRows(rows[..|rows| - 1], run) + (if rows[|rows| - 1].run == run then [rows[|rows| - 1]] else [])
  }

  lemma OwnRowsAppend(rows: seq<Row>, row: Row, run: nat)
    ensures OwnRows(rows + [row], run) == OwnRows(rows, run) + (if row.run == run then [row] else [])
  {
    assert (rows + [row])[..|rows|] == rows;
  }

  lemma {:induction false} OwnRowsCommit(rows: seq<Row>, added: seq<Row>, run: nat)
    requires forall i :: 0 <= i < |added| ==> added[i].run == run
    ensures OwnRows(rows + added, run) == OwnRows(rows, run) + added
  {
    if added == [] {
      assert rows + added == rows;
    } else {
      var init, last := added[..|added| - 1], added[|added| - 1];
      assert rows + added == (rows + init) + [last];
      OwnRowsCommit(rows, init, run);
      OwnRowsAppend(rows + init, last, run);
    }
  }

  lemma {:induction false} OwnRowIsOwn(rows: seq<Row>, r: nat, run: nat)
    requires r < |rows| && rows[r].run == run
    ensures rows[r] in OwnRows(rows, run)
  {
    if r < |rows| - 1 { OwnRowIsOwn(rows[..|rows| - 1], r, run); }
  }

  /** A point in time of an execution. */
  datatype Moment = At(db: Database, story: Story)

  /** Time has passed from `m` to `n`: the history has only grown; `alone`, no setup has failed. */
  ghost predicate Later(m: Moment, n: Moment, alone: bool) {
    && Views(m.story) <= Views(n.story)
    && (alone ==> n.db.setupFailures == m.db.setupFailures)
  }

  /** Only other sessions have committed anything from `m` to `n`. */
  ghost predicate Since(m: Moment, n: Moment, run: nat, alone: bool) {
    && Later(m, n, alone) && m.db.events <= n.db.events && |m.db.steps| <= |n.db.steps|
    && Own(n.story) == Own(m.story) && StageOf(n.story) == StageOf(m.story) && Opened(n.story) == Opened(m.story)
    && (forall status :: Had(m.story, status) ==> Had(n.story, status))
    && SetupFailures(m.story) <= SetupFailures(n.story)
    && RunningRow(n.story) == RunningRow(m.story)
    && OwnRows(n.db.events, run) == OwnRows(m.db.events, run)
    && n.db.count == m.db.count
    && (alone ==> n.db == m.db && n.story == m.story)
  }

  /** The rows `rows` have been committed after those of `m`, and alone if nobody else was writing. */
  ghost predicate Landed(m: Moment, n: Moment, rows: seq<Row>, alone: bool) {
    var k := |n.db.events| - |rows|;
    && |m.db.events| <= k && m.db.events <= n.db.events[..k] && n.db.events[k..] == rows
    && (alone ==> n.db.events == m.db.events + rows)
  }

  /** The last commit since `m` is `w`, and it is this session's only one. */
  ghost predicate Done(m: Moment, n: Moment, w: Write, alone: bool) {
    && Later(m, n, alone)
    && n.story.Then? && n.story.w == w
    && Own(n.story) == Own(m.story) + [w] && StageOf(n.story) == StageOf(Then(m.story, w))
    && (alone ==> n.story == Then(m.story, w))
  }

  /** The event rows of `m` are all still there, and alone there if nobody else was writing. */
  ghost predicate Kept(m: Moment, n: Moment, alone: bool) {
    m.db.events <= n.db.events && (alone ==> n.db.events == m.db.events)
  }

  lemma LandedKept(m: Moment, n: Moment, alone: bool)
    requires Landed(m, n, [], alone)
    ensures Kept(m, n, alone)
  {
    assert n.db.events[..|n.db.events|] == n.db.events && m.db.events + [] == m.db.events;
  }

  lemma SinceTransitively(m: Moment, n: Moment, p: Moment, run: nat, alone: bool)
    requires Since(m, n, run, alone) && Since(n, p, run, alone)
    ensures Since(m, p, run, alone)
  {
  }

  /** What can be committed now can be committed after other sessions' turns, and takes the execution to
      the same stage. */
  lemma StillCan(m: Moment, n: Moment, run: nat, alone: bool, w: Write)
    requires Since(m, n, run, alone) && Can(m.story, w) && !IsFailure(w) && w != OnRow(Claims)
    ensures Can(n.story, w) && StageOf(Then(n.story, w)) == StageOf(Then(m.story, w))
  {
  }

  /** A commit at a later moment. */
  lemma DoneLater(m: Moment, n: Moment, run: nat, alone: bool, w: Write, n': Moment, rows: seq<Row>)
    requires Since(m, n, run, alone) && Can(m.story, w) && !IsFailure(w) && w != OnRow(Claims)
    requires n'.story == Then(n.story, w)
    requires n'.db.events == n.db.events + rows && n'.db.setupFailures == n.db.setupFailures
    ensures Done(m, n', w, alone) && Landed(m, n', rows, alone)
  {
    StillCan(m, n, run, alone, w);
  }

  class Execution {
    const user: string
    const run: nat
    const others: seq<Other>  // what other sessions try to commit, one at each suspension
    var db: Database
    var draft: Draft
    var added: seq<Row>       // inserted in this session, not yet committed
    var pending: Option<Row>  // given to the session, not yet inserted
    var violated: bool        // an insert has hit the unique key, and the execution stopped there
    var moves: seq<Destination>
    var sent: seq<Notice>
    var budget: nat           // suspensions to survive; at the next one it is killed, or an exception
                              // that nothing catches is raised
    var turn: nat             // how many turns they have had
    var story: Story          // every commit to the run so far

    /** The execution that claimed run `run`, as far as it has come in `story`. */
    constructor (user: string, run: nat, story: Story, events: seq<Row>, others: seq<Other>, budget: nat)
      requires IsStory(story) && StageOf(story).Some?
      requires Unique(events) && OwnRows(events, run) == ViewAfter(story).saved
      ensures Synced() && this.user == user && this.run == run && this.story == story
      ensures Seen() == ViewAfter(story) && db.events == events && sent == []
      ensures this.others == others && this.budget == budget && turn == 0
    {
      this.user, this.run, this.others, this.budget, this.story := user, run, others, budget, story;
      var v := ViewAfter(story);
      db := Database(v.status, v.steps, v.count, events, SetupFailures(story));
      draft, added, pending, violated, turn := CLEAN, [], None, false, 0;
      moves, sent := v.moves, [];
      new;
      StoryFacts(story);
      assert db.events + added == events;
    }

    function Seen(): View
      reads this
    {
      View(db.status, db.steps, db.count, OwnRows(db.events, run), moves)
    }

    /** What holds at every moment, also after the execution has stopped: the story accounts for what
        others see now. */
    ghost predicate Safe()
      reads this
    {
      && IsStory(story) && ViewAfter(story) == Seen() && SetupFailures(story) == db.setupFailures
      && Unique(db.events)
    }

    ghost predicate Valid()
      reads this
    {
      && Safe() && !violated && StageOf(story).Some?
      && Unique(db.events + added)
      && (forall i :: 0 <= i < |added| ==> added[i].run == run && added[i].user == user)
      && (pending.Some? ==> pending.value.run == run && pending.value.user == user)
    }

    /** Nothing is waiting to be committed. */
    ghost predicate Synced()
      reads this
    {
      Valid() && draft == CLEAN && added == [] && pending == None
    }

    ghost function Stage(): Stage
      requires StageOf(story).Some?
      reads this
    {
      StageOf(story).value
    }

    lemma JoinedKeeps(row: Row)
      requires Unique(db.events) && Unique(db.events + added)
      ensures var events := Joined(db.events, added, CommitsEvent(row), run);
              Unique(events) && Unique(events + added) && OwnRows(events, run) == OwnRows(db.events, run)
    {
      if row.run != run && !HasKey(db.events + added, row.user, KeyOf(row.event)) {
        InsertElsewhere(db.events, added, row);
        OwnRowsAppend(db.events, row, run);
        UniquePrefix(db.events + [row], added);
      }
    }

    /** Another session commits an event row, if its key is free. */
    method CommitElsewhere(row: Row)
      requires Valid()
      modifies this`db
      ensures Valid() && Since(At(old(db), story), At(db, story), run, false)
      ensures db.events == Joined(old(db).events, added, CommitsEvent(row), run)
    {
      hide Unique, HasKey, OwnRows;
      JoinedKeeps(row);
      if row.run != run && !HasKey(db.events + added, row.user, KeyOf(row.event)) {
        db := db.(events := db.events + [row]);
      }
    }

    /** A delivery of the run whose storage setup failed marks it. */
    method MarkElsewhere(loaded: RunStatus)
      requires Valid() && Had(story, loaded)
      modifies this`db, this`story
      ensures Valid() && Since(At(old(db), old(story)), At(db, story), run, false)
      ensures db.events == old(db).events && story == Then(old(story), OnRow(Fails(loaded)))
    {
      FailureLeavesExecution(story, loaded);
      db := db.(steps := db.steps + [StepRow(1, Errored)], setupFailures := db.setupFailures + 1);
      if loaded != Failed {
        db := db.(status := Failed);
      }
      story := Then(story, OnRow(Fails(loaded)));
    }

    /** The turn of another session. */
    method OthersTurn(other: Other)
      requires Valid()
      modifies this`db, this`story
      ensures Valid() && Since(At(old(db), old(story)), At(db, story), run, false)
      ensures db.events == Joined(old(db).events, added, other, run)
    {
      if other.CommitsEvent? {
        CommitElsewhere(other.row);
      } else if Had(story, other.loaded) {
        MarkElsewhere(other.loaded);
      }
    }

    /** A suspension point: another session takes its turn, or the execution stops here. */
    method Point() returns (o: Outcome)
      requires Valid()
      modifies this`db, this`turn, this`budget, this`story
      ensures Valid() && Since(At(old(db), old(story)), At(db, story), run, others == [])
      ensures o == Stopped <==> old(budget) == 0
      ensures budget == if o == Stopped then 0 else old(budget) - 1
      ensures turn == old(turn) + if o == Completed && old(turn) < |others| then 1 else 0
      ensures db.events ==
              if turn > old(turn) then Joined(old(db).events, added, others[old(turn)], run) else old(db).events
    {
      hide Unique, OwnRows, HasKey;
      if budget == 0 {
        return Stopped;
      }
      budget := budget - 1;
      if turn < |others| {
        OthersTurn(others[turn]);
        turn := turn + 1;
      }
      return Completed;
    }

    /** A row that conflicts with none may be committed by another session. */
    lemma InsertElsewhere(rows: seq<Row>, added: seq<Row>, row: Row)
      requires Unique(rows + added) && !HasKey(rows + added, row.user, KeyOf(row.event))
      ensures Unique(rows + [row] + added)
    {
      var all, base := rows + [row] + added, rows + added;
      forall i, j | 0 <= i < j < |all| && all[i].user == all[j].user
        ensures KeyOf(all[i].event) != KeyOf(all[j].event)
      {
        var i' := if i < |rows| then i else i - 1;
        var j' := if j < |rows| then j else j - 1;
        if i != |rows| { assert all[i] == base[i']; }
        if j != |rows| { assert all[j] == base[j']; }
      }
    }

    lemma UniquePrefix(rows: seq<Row>, more: seq<Row>)
      requires Unique(rows + more)
      ensures Unique(rows)
    {
      forall i, j | 0 <= i < j < |rows| && rows[i].user == rows[j].user
        ensures KeyOf(rows[i].event) != KeyOf(rows[j].event)
      {
        assert (rows + more)[i] == rows[i] && (rows + more)[j] == rows[j];
      }
    }

    // ---------- Commits ----------

    /** What this session has written makes the commit `w`. */
    ghost predicate Fits(w: Write)
      reads this
    {
      match w
      case OnRow(row) =>
        && added == [] && (row.Begins? || row.Finishes?)
        && draft == CLEAN.(status := if row.Finishes? then Some(if row.ok then Success else Failed)
                                     else if row.loaded == InProgress then None
                                     else Some(InProgress))
      case StepBegins(g) =>
        added == [] && draft == CLEAN.(begun := Some(StepRow(if g.Begun? then g.step else 7, Running)))
      case StepEnds(g, status, rows) =>
        && rows == added && RunningRow(story).Some? && RunningRow(story).value < |db.steps|
        && draft == CLEAN.(finished := Some((RunningRow(story).value, status)),
                           count := if g == Ended(6) then Some(|added|) else None)
      case FileMoves(_) => false
    }

    /** The database after this session's writes. */
    function Flushed(): Database
      requires draft.finished.Some? ==> draft.finished.value.0 < |db.steps|
      reads this
    {
      Database(
        if draft.status.Some? then draft.status.value else db.status,
        if draft.begun.Some? then db.steps + [draft.begun.value]
        else if draft.finished.Some? then
          var (row, status) := draft.finished.value;
          db.steps[row := db.steps[row].(status := status)]
        else db.steps,
        if draft.count.Some? then draft.count.value else db.count,
        db.events + added,
        db.setupFailures)
    }

    /** They show what the commit shows. */
    ghost predicate Shows(w: Write)
      requires draft.finished.Some? ==> draft.finished.value.0 < |db.steps|
      reads this
    {
      View(Flushed().status, Flushed().steps, Flushed().count, OwnRows(Flushed().events, run), moves) ==
        Shown(Seen(), RunningRow(story), w)
    }

    lemma RowFitsShows(w: Write)
      requires Fits(w) && w.OnRow?
      ensures Shows(w)
    {
      assert db.events + added == db.events;
    }

    lemma BeginFitsShows(w: Write)
      requires Fits(w) && w.StepBegins?
      ensures Shows(w)
    {
      assert db.events + added == db.events;
    }

    lemma EndFitsShows(w: Write)
      requires Fits(w) && w.StepEnds? && forall i :: 0 <= i < |added| ==> added[i].run == run
      ensures draft.finished.Some? && draft.finished.value.0 < |db.steps| && Shows(w)
    {
      OwnRowsCommit(db.events, added, run);
    }

    lemma FitsShows(w: Write)
      requires Fits(w) && forall i :: 0 <= i < |added| ==> added[i].run == run
      ensures draft.finished.Some? ==> draft.finished.value.0 < |db.steps|
      ensures Shows(w)
    {
      match w
      case OnRow(_) => RowFitsShows(w);
      case StepBegins(_) => BeginFitsShows(w);
      case StepEnds(_, _, _) => EndFitsShows(w);
    }

    /** The moment of a commit: everything the session has written becomes visible at once. */
    method Publish(w: Write)
      requires Valid() && pending == None && Can(story, w) && Fits(w)
      modifies this`db, this`added, this`draft, this`story
      ensures Synced()
      ensures story == Then(old(story), w) && Seen() == Shown(old(Seen()), RunningRow(old(story)), w)
      ensures db.events == old(db).events + old(added) && db.setupFailures == old(db).setupFailures
    {
      FitsShows(w);
      db := Flushed();
      added, draft := [], CLEAN;
      story := Then(story, w);
      assert db.events + added == db.events;
    }

    /** A commit, after its suspension. */
    method Commit(w: Write) returns (o: Outcome)
      requires Valid() && pending == None && Can(story, w) && Fits(w)
      modifies this`db, this`added, this`draft, this`turn, this`budget, this`story
      ensures Safe() && Later(At(old(db), old(story)), At(db, story), others == [])
      ensures Spends(old(budget), budget, 1, o)
      ensures o == Completed ==> Synced() && Done(At(old(db), old(story)), At(db, story), w, others == [])
      ensures o == Completed ==> Landed(At(old(db), old(story)), At(db, story), old(added), others == [])
      ensures o == Completed ==> Seen().saved == old(Seen().saved + added)
    {
      hide Unique, OwnRows, HasKey;
      ghost var m, rows := At(db, story), added;
      o := Point();
      if o == Completed {
        ghost var n := At(db, story);
        StillCan(m, n, run, others == [], w);
        OwnRowsCommit(db.events, added, run);
        Publish(w);
        DoneLater(m, n, run, others == [], w, At(db, story), rows);
      }
    }

    // ---------- Steps ----------

    /** `_begin_step`: the step's row appears, in progress. */
    method BeginStep(number: nat, to: Stage) returns (o: Outcome, row: nat)
      requires Synced() && NextStage(Stage(), to) && (to == Begun(number) || (to.Telling? && number == 7))
      requires to == Begun(1) ==> Opened(story)
      modifies this`draft, this`db, this`added, this`turn, this`budget, this`story
      ensures Safe() && Later(At(old(db), old(story)), At(db, story), others == [])
      ensures Spends(old(budget), budget, 1, o)
      ensures o == Completed ==>
                && Synced() && Done(At(old(db), old(story)), At(db, story), StepBegins(to), others == [])
                && RunningRow(story) == Some(row) && row < |db.steps| && db.steps[row] == StepRow(number, Running)
      ensures o == Completed ==> Landed(At(old(db), old(story)), At(db, story), [], others == [])
      ensures o == Completed ==> Seen().saved == old(Seen().saved)
    {
      hide Unique, HasKey, OwnRows;
      row := 0;
      draft := draft.(begun := Some(StepRow(number, Running)));
      o := Commit(StepBegins(to));
      if o == Completed { row := |db.steps| - 1; }
    }

    /** `_finish_step`: the step's row gets its final status, and whatever else the session holds is
        committed with it. */
    method FinishStep(row: nat, status: StepStatus, to: Stage) returns (o: Outcome)
      requires Valid() && pending == None && NextStage(Stage(), to)
      requires (Stage().Begun? || Stage().Telling?) && MayFinish(Stage(), to, status)
      requires RunningRow(story) == Some(row) && row < |db.steps|
      requires draft == CLEAN.(count := if to == Ended(6) then Some(|added|) else None)
      requires to == Ended(6) || added == []
      modifies this`draft, this`db, this`added, this`turn, this`budget, this`story
      ensures Safe() && Later(At(old(db), old(story)), At(db, story), others == [])
      ensures Spends(old(budget), budget, 1, o)
      ensures o == Completed ==>
                && Synced()
                && Done(At(old(db), old(story)), At(db, story), StepEnds(to, status, old(added)), others == [])
      ensures o == Completed ==> Landed(At(old(db), old(story)), At(db, story), old(added), others == [])
      ensures o == Completed ==> Seen().saved == old(Seen().saved + added)
    {
      hide Unique, HasKey, OwnRows;
      draft := draft.(finished := Some((row, status)));
      o := Commit(StepEnds(to, status, added));
    }

    // ---------- Deduplicate and save ----------

    lemma KeysKept(before: seq<Row>, now: seq<Row>, mine: seq<Row>)
      requires before <= now
      ensures StoredKeys(before + mine, user) <= StoredKeys(now + mine, user)
    {
      StoredKeysConcat(before, mine, user);
      StoredKeysConcat(now, mine, user);
      StoredKeysGrow(before, now, user);
    }

    /** The pending row has been inserted. */
    method InsertPending()
      requires Valid() && pending.Some? && !Clashes(user, db.events, added, pending)
      modifies this`added, this`pending
      ensures Valid() && pending == None && added == old(added) + Inserted(old(pending))
    {
      UniqueExtends(db.events + added, pending.value);
      assert db.events + added + [pending.value] == db.events + (added + [pending.value]);
      hide Unique, HasKey, OwnRows;
      added := added + [pending.value];
      pending := None;
    }

    /** The insert that the session owes the database happens before its next statement. It goes through
        unless the execution is cut off first, or another session has by then committed the same key:
        then the constraint is violated and the execution stops. */
    method Flush() returns (o: Outcome)
      requires Valid()
      modifies this`db, this`turn, this`budget, this`added, this`pending, this`story, this`violated
      ensures Safe() && Since(At(old(db), old(story)), At(db, story), run, others == [])
      ensures violated <==> old(budget) > 0 && Clashes(user, db.events, old(added), old(pending))
      ensures o == Stopped <==> old(budget) == 0 || violated
      ensures budget == if old(budget) == 0 then 0 else old(budget) - 1
      ensures o == Completed ==> Valid() && pending == None && added == old(added) + Inserted(old(pending))
      ensures turn == old(turn) + if old(budget) > 0 && old(turn) < |others| then 1 else 0
      ensures db.events ==
              if turn > old(turn) then Joined(old(db).events, old(added), others[old(turn)], run) else old(db).events
      ensures violated ==> pending == old(pending) && added == old(added)
    {
      hide Unique, HasKey, OwnRows;
      o := Point();
      if o == Stopped { return; }
      if Clashes(user, db.events, added, pending) {
        violated := true;
        return Stopped;
      }
      if pending.Some? { InsertPending(); }
    }

    lemma OneMoreOccurrence(rows: seq<Row>, batch: seq<Extracted>, i: nat)
      requires FirstOccurrences(rows, batch) && i < |batch|
      requires forall j :: 0 <= j < i ==> KeyOf(batch[j]) != KeyOf(batch[i])
      ensures FirstOccurrences(rows + [Row(user, run, batch[i])], batch)
    {
      var more := rows + [Row(user, run, batch[i])];
      forall r | 0 <= r < |more|
        ensures more[r].user == user
        ensures exists i :: 0 <= i < |batch| && more[r].event == batch[i]
                            && forall j :: 0 <= j < i ==> KeyOf(batch[j]) != KeyOf(batch[i])
      {
        if r < |rows| { assert more[r] == rows[r]; }
      }
    }

    /** Each row this session inserts is the first event of the batch with its key. */
    ghost predicate FirstOccurrences(rows: seq<Row>, batch: seq<Extracted>) {
      forall r :: 0 <= r < |rows| ==>
        rows[r].user == user
        && exists i :: 0 <= i < |batch| && rows[r].event == batch[i]
                       && forall j :: 0 <= j < i ==> KeyOf(batch[j]) != KeyOf(batch[i])
    }

    /** What the first `i` events of a batch have come to: the rows `mine` of this session on top of the
        rows `events`, which were `before` at the start. */
    ghost predicate Considered(batch: seq<Extracted>, i: nat, before: seq<Row>, events: seq<Row>, mine: seq<Row>) {
      && i <= |batch|
      && Keys(batch[..i]) <= StoredKeys(events + mine, user)
      && FirstOccurrences(mine, batch)
      && (others == [] ==> events + mine == Save(before, user, run, batch[..i]))
    }

    /** If no other session commits a key of the batch, the pending row's key is free. */
    ghost predicate Free(batch: seq<Extracted>, events: seq<Row>, rows: seq<Row>, row: Option<Row>) {
      Calm(others, user, batch) ==> !Clashes(user, events, rows, row)
    }

    lemma NothingConsidered(batch: seq<Extracted>, events: seq<Row>)
      ensures Considered(batch, 0, events, events, []) && Keys(batch[..0]) == {}
    {
      assert batch[..0] == [] && events + [] == events;
    }

    /** The rows of other sessions take nothing away. */
    lemma StillConsidered(batch: seq<Extracted>, i: nat, before: seq<Row>, events: seq<Row>, now: seq<Row>,
                          mine: seq<Row>)
      requires Considered(batch, i, before, events, mine) && events <= now && (others == [] ==> now == events)
      ensures Considered(batch, i, before, now, mine)
    {
      KeysKept(events, now, mine);
    }

    /** An event whose key was seen before in the batch changes nothing. */
    lemma SeenBefore(batch: seq<Extracted>, i: nat, before: seq<Row>, events: seq<Row>, mine: seq<Row>)
      requires Considered(batch, i, before, events, mine)
      requires i < |batch| && KeyOf(batch[i]) in Keys(batch[..i])
      ensures Considered(batch, i + 1, before, events, mine) && Keys(batch[..i + 1]) == Keys(batch[..i])
    {
      KeysOneMore(batch, i);
      SaveOneMore(before, user, run, batch, i);
      HasKeyIsStored(events + mine, user, KeyOf(batch[i]));
    }

    /** An event not seen before becomes a row of this session, unless its key is stored. */
    lemma NewEvent(batch: seq<Extracted>, i: nat, before: seq<Row>, events: seq<Row>, mine: seq<Row>)
      requires Considered(batch, i, before, events, mine)
      requires i < |batch| && KeyOf(batch[i]) !in Keys(batch[..i])
      ensures Keys(batch[..i + 1]) == Keys(batch[..i]) + {KeyOf(batch[i])}
      ensures var row := Row(user, run, batch[i]);
              if HasKey(events + mine, user, KeyOf(batch[i])) then Considered(batch, i + 1, before, events, mine)
              else Considered(batch, i + 1, before, events, mine + [row])
    {
      KeysOneMore(batch, i);
      SaveOneMore(before, user, run, batch, i);
      HasKeyIsStored(events + mine, user, KeyOf(batch[i]));
      if !HasKey(events + mine, user, KeyOf(batch[i])) {
        OneMoreOccurrence(mine, batch, i);
        StoredKeysAfterInsert(events + mine, Row(user, run, batch[i]), user);
        assert events + (mine + [Row(user, run, batch[i])]) == events + mine + [Row(user, run, batch[i])];
      }
    }

    /** A turn of another session leaves the pending row's key free, if none commits a key of the batch. */
    lemma StillFree(batch: seq<Extracted>, events: seq<Row>, rows: seq<Row>, row: Option<Row>, t: nat)
      requires Free(batch, events, rows, row) && t < |others|
      requires row.Some? ==> row.value.user == user && KeyOf(row.value.event) in Keys(batch)
      ensures Free(batch, Joined(events, rows, others[t], run), rows, row)
    {
      if Calm(others, user, batch) && row.Some? {
        var other := others[t];
        assert other in others;
        if Joined(events, rows, other, run) != events {
          JoinedKey(events, rows, other.row, KeyOf(row.value.event));
        }
      }
    }

    lemma JoinedKey(events: seq<Row>, rows: seq<Row>, other: Row, key: Key)
      requires !HasKey(events + rows, user, key) && (other.user == user ==> KeyOf(other.event) != key)
      ensures !HasKey(events + [other] + rows, user, key)
    {
      var all, base := events + [other] + rows, events + rows;
      forall i | 0 <= i < |all| ensures !(all[i].user == user && KeyOf(all[i].event) == key) {
        if i < |events| { assert all[i] == base[i]; }
        else if i > |events| { assert all[i] == base[i - 1]; }
      }
    }

    /** An event that a row of this session holds has a key of the batch. */
    lemma OccurrenceKey(rows: seq<Row>, batch: seq<Extracted>, r: nat)
      requires FirstOccurrences(rows, batch) && r < |rows|
      ensures KeyOf(rows[r].event) in Keys(batch)
    {
    }

    /** What a save has left of a batch, in terms of the columns. */
    lemma OwnInColumns(rows: seq<Row>, batch: seq<Extracted>)
      requires Unique(rows) && Keys(batch) <= StoredKeys(rows, user) && FirstOccurrences(OwnRows(rows, run), batch)
      ensures SavedAmongOthers(rows, user, run, batch)
    {
      var own := OwnRows(rows, run);
      forall r | 0 <= r < |rows| && rows[r].run == run
        ensures rows[r].user == user
        ensures exists i :: 0 <= i < |batch| && rows[r].event == batch[i]
                            && forall j :: 0 <= j < i ==> KeyOf(batch[j]) != KeyOf(batch[i])
      {
        OwnRowIsOwn(rows, r, run);
        var k :| 0 <= k < |own| && own[k] == rows[r];
      }
      SavedInColumns(rows, user, run, batch);
    }

    /** An execution that survives `before` suspensions stops only for want of them, or where the unique
        key is violated. */
    predicate Ends(before: nat, cost: nat, o: Outcome)
      reads this
    {
      if violated then o == Stopped else Spends(before, budget, cost, o)
    }

    /** The first `i` events of a batch have been dealt with since `m`. */
    ghost predicate Saving(batch: seq<Extracted>, i: nat, seen: set<Key>, newCount: nat, m: Moment)
      reads this
    {
      && i <= |batch| && Valid() && Since(m, At(db, story), run, others == [])
      && seen == Keys(batch[..i])
      && newCount == |added + Inserted(pending)|
      && Considered(batch, i, m.db.events, db.events, added + Inserted(pending))
      && Free(batch, db.events, added, pending)
    }

    /** The insert that is owed, in the course of saving a batch. */
    method FlushSaving(batch: seq<Extracted>, ghost i: nat, ghost seen: set<Key>, ghost newCount: nat, ghost m: Moment)
      returns (o: Outcome)
      requires Saving(batch, i, seen, newCount, m)
      modifies this`db, this`turn, this`budget, this`added, this`pending, this`story, this`violated
      ensures Safe() && Since(m, At(db, story), run, others == []) && Ends(old(budget), 1, o)
      ensures violated ==> !Calm(others, user, batch)
      ensures o == Completed ==> Saving(batch, i, seen, newCount, m) && pending == None
      ensures o == Completed ==> added == old(added) + Inserted(old(pending))
      ensures violated <==> old(budget) > 0 && Clashes(user, db.events, old(added), old(pending))
      ensures o == Completed ==> old(budget) > 0
      ensures violated ==> pending == old(pending) && added == old(added)
      ensures turn == old(turn) + if old(budget) > 0 && old(turn) < |others| then 1 else 0
      ensures db.events ==
              if turn > old(turn) then Joined(old(db).events, old(added), others[old(turn)], run) else old(db).events
    {
      hide Unique, HasKey, OwnRows, Keys, StoredKeys, Save;
      ghost var n, mine, t := At(db, story), added + Inserted(pending), turn;
      if pending.Some? {
        assert mine[|added|] == pending.value;
        OccurrenceKey(mine, batch, |added|);
      }
      if turn < |others| { StillFree(batch, db.events, added, pending, turn); }
      o := Flush();
      SinceTransitively(m, n, At(db, story), run, others == []);
      if o == Completed {
        StillConsidered(batch, i, m.db.events, n.db.events, db.events, mine);
        assert added + Inserted(pending) == mine;
      }
    }

    /** The duplicate check of an event not seen before and, if it is new, its hand-over to the
        session. */
    method CheckAndAdd(batch: seq<Extracted>, i: nat, ghost seen: set<Key>, newCount: nat, ghost m: Moment)
      returns (o: Outcome, count: nat)
      requires Saving(batch, i, seen, newCount, m) && i < |batch| && KeyOf(batch[i]) !in seen
      modifies this`db, this`turn, this`budget, this`added, this`pending, this`story, this`violated
      ensures Safe() && Since(m, At(db, story), run, others == []) && Ends(old(budget), 1, o)
      ensures violated ==> !Calm(others, user, batch)
      ensures o == Completed ==> Saving(batch, i + 1, seen + {KeyOf(batch[i])}, count, m)
      ensures violated <==> old(budget) > 0 && Clashes(user, db.events, old(added), old(pending))
      ensures o == Completed ==> old(budget) > 0
      ensures violated ==> pending == old(pending) && added == old(added)
      ensures o == Completed ==>
                && added == old(added) + Inserted(old(pending))
                && pending == if HasKey(db.events + added, user, KeyOf(batch[i])) then None
                              else Some(Row(user, run, batch[i]))
      ensures turn == old(turn) + if old(budget) > 0 && old(turn) < |others| then 1 else 0
      ensures db.events ==
              if turn > old(turn) then Joined(old(db).events, old(added), others[old(turn)], run) else old(db).events
    {
      hide Unique, HasKey, OwnRows, Keys, StoredKeys, Save;
      count := newCount;
      o := FlushSaving(batch, i, seen, newCount, m);
      if o == Stopped { return; }
      assert added + Inserted(pending) == added;
      NewEvent(batch, i, m.db.events, db.events, added);
      if !HasKey(db.events + added, user, KeyOf(batch[i])) {
        pending := Some(Row(user, run, batch[i]));
        count := count + 1;
      }
    }

    /** The pending row has met its key, as this end of the save says. */
    predicate IsClash(end: End)
      reads this
    {
      end.Clash? && pending == Some(end.row) && end.stored == db.events + added
    }

    /** One turn of the loop over the batch. */
    method ConsiderEvent(batch: seq<Extracted>, i: nat, seen: set<Key>, newCount: nat, ghost m: Moment,
                         ghost checked: seq<Row>)
      returns (o: Outcome, seen': set<Key>, count: nat, ghost checked': seq<Row>)
      requires Saving(batch, i, seen, newCount, m) && i < |batch|
      modifies this`db, this`turn, this`budget, this`added, this`pending, this`story, this`violated
      ensures Safe() && Since(m, At(db, story), run, others == []) && Ends(old(budget), 1, o)
      ensures violated ==> !Calm(others, user, batch)
      ensures o == Completed ==> Saving(batch, i + 1, seen', count, m)
      ensures var before := Course(old(db).events, old(added), old(pending), checked, old(turn));
              var end := Saves(user, run, others, batch, i, seen, before);
              var now := Course(db.events, added, pending, checked', turn);
              && (o == Completed ==> end == Saves(user, run, others, batch, i + 1, seen', now))
              && (violated ==> IsClash(end))
    {
      hide Unique, HasKey, OwnRows, Keys, StoredKeys, Save, FirstOccurrences, Free, Calm;
      hide IsStory, ViewAfter, SetupFailures, Own, RunningRow;
      if KeyOf(batch[i]) in seen {
        SeenBefore(batch, i, m.db.events, db.events, added + Inserted(pending));
        return Completed, seen, newCount, checked;
      }
      checked' := checked;
      o, count := CheckAndAdd(batch, i, seen, newCount, m);
      seen' := seen + {KeyOf(batch[i])};
      if o == Completed { checked' := db.events + added; }
    }

    /** What a finished save has done since `m`. */
    ghost predicate SavedBatch(batch: seq<Extracted>, newCount: nat, m: Moment)
      reads this
    {
      && Valid() && Since(m, At(db, story), run, others == []) && pending == None && newCount == |added|
      && Considered(batch, |batch|, m.db.events, db.events, added)
    }

    lemma SavedBatchInColumns(batch: seq<Extracted>, newCount: nat, m: Moment)
      requires SavedBatch(batch, newCount, m) && OwnRows(m.db.events, run) == []
      ensures SavedAmongOthers(db.events + added, user, run, batch)
    {
      OwnRowsCommit(db.events, added, run);
      assert batch[..|batch|] == batch && [] + added == added;
      OwnInColumns(db.events + added, batch);
    }

    method FinishSaving(batch: seq<Extracted>, ghost seen: set<Key>, ghost newCount: nat, ghost m: Moment,
                        ghost checked: seq<Row>)
      returns (o: Outcome)
      requires Saving(batch, |batch|, seen, newCount, m)
      modifies this`db, this`turn, this`budget, this`added, this`pending, this`story, this`violated
      ensures Safe() && Since(m, At(db, story), run, others == []) && Ends(old(budget), 1, o)
      ensures violated ==> !Calm(others, user, batch)
      ensures o == Completed ==> SavedBatch(batch, newCount, m)
      ensures var end := Saves(user, run, others, batch, |batch|, seen,
                               Course(old(db).events, old(added), old(pending), checked, old(turn)));
              && (o == Completed ==> end == Through(db.events, added))
              && (violated ==> IsClash(end))
    {
      hide Unique, HasKey, OwnRows, Keys, StoredKeys, Save;
      o := FlushSaving(batch, |batch|, seen, newCount, m);
      assert o == Completed ==> added + Inserted(pending) == added;
    }

    /** `_deduplicate_and_save`. With other sessions committing rows in between, every key of the batch ends up
        stored once, the rows inserted are first occurrences, and the count returned is their number. Unless
        it is cut off, it ends exactly as `SaveAmong` says: in the clash of a row, or with all rows inserted.
        Undisturbed, the result is exactly `Save`. */
    method DeduplicateAndSave(batch: seq<Extracted>) returns (o: Outcome, newCount: nat)
      requires Synced()
      modifies this`db, this`turn, this`budget, this`added, this`pending, this`story, this`violated
      ensures Safe() && Since(At(old(db), old(story)), At(db, story), run, others == [])
      ensures Ends(old(budget), |batch| + 1, o) && (violated ==> !Calm(others, user, batch))
      ensures o == Completed ==> SavedBatch(batch, newCount, At(old(db), old(story)))
      ensures o == Completed && old(Seen().saved) == [] ==> SavedAmongOthers(db.events + added, user, run, batch)
      ensures var end := SaveAmong(user, run, others, batch, old(db).events, old(turn));
              && (o == Completed ==> end == Through(db.events, added))
              && (violated ==> IsClash(end))
    {
      hide Unique, HasKey, OwnRows, Keys, StoredKeys, Save, FirstOccurrences, Calm, SavedAmongOthers;
      hide IsStory, ViewAfter, SetupFailures, Own, RunningRow;
      ghost var m := At(db, story);
      newCount := 0;
      var seen: set<Key> := {};
      var i := 0;
      NothingConsidered(batch, db.events);
      assert added + Inserted(pending) == [];
      ghost var checked := db.events;
      ghost var end := SaveAmong(user, run, others, batch, db.events, turn);
      while i < |batch|
        invariant Saving(batch, i, seen, newCount, m)
        invariant budget <= old(budget) <= budget + i
        invariant end == Saves(user, run, others, batch, i, seen, Course(db.events, added, pending, checked, turn))
      {
        o, seen, newCount, checked := ConsiderEvent(batch, i, seen, newCount, m, checked);
        if o == Stopped { return; }
        i := i + 1;
      }
      o := FinishSaving(batch, seen, newCount, m, checked);
      if o == Completed && OwnRows(m.db.events, run) == [] { SavedBatchInColumns(batch, newCount, m); }
    }

    // ---------- The end of a run ----------

    /** Hands a notice to the sender. */
    method Send(notice: Notice) returns (o: Outcome)
      requires Synced()
      modifies this`db, this`turn, this`budget, this`story, this`sent
      ensures Safe() && Since(At(old(db), old(story)), At(db, story), run, others == [])
      ensures Spends(old(budget), budget, 1, o) && (o == Completed ==> Synced())
      ensures sent == if o == Completed then old(sent) + [notice] else old(sent)
    {
      hide Unique, HasKey, OwnRows, Keys, StoredKeys, Save;
      o := Point();
      if o == Completed { sent := sent + [notice]; }
    }

    /** Reads the user's settings row, which is a commit if the row has to be created; it shows nothing
        of the run. */
    method ReadSettings(creates: bool) returns (o: Outcome)
      requires Synced()
      modifies this`db, this`turn, this`budget, this`story
      ensures Safe() && Since(At(old(db), old(story)), At(db, story), run, others == [])
      ensures Spends(old(budget), budget, 1, o) && (o == Completed ==> Synced())
    {
      hide Unique, HasKey, OwnRows, Keys, StoredKeys, Save;
      o := Completed;
      if creates {
        o := Point();
      }
    }

    /** The middle of `_notify`: the notice goes out and the settings row is read. */
    method TellUser(notice: Notice, createsSettings: bool) returns (o: Outcome)
      requires Synced()
      modifies this`db, this`turn, this`budget, this`story, this`sent
      ensures Safe() && Since(At(old(db), old(story)), At(db, story), run, others == [])
      ensures Spends(old(budget), budget, 2, o) && (o == Completed ==> Synced())
      ensures sent == old(sent) || sent == old(sent) + [notice]
      ensures o == Completed ==> sent == old(sent) + [notice]
    {
      hide Unique, HasKey, OwnRows, Keys, StoredKeys, Save, IsStory, ViewAfter, SetupFailures, Own, Can;
      ghost var m := At(db, story);
      o := Send(notice);
      if o == Stopped { return; }
      ghost var n := At(db, story);
      o := ReadSettings(createsSettings);
      SinceTransitively(m, n, At(db, story), run, others == []);
    }

    /** The rest of `_notify` once step 7 has begun. */
    method TellAndFinish(row: nat, notice: Notice, createsSettings: bool, ended: Stage) returns (o: Outcome)
      requires Synced() && NextStage(Stage(), ended) && (Stage() == Begun(7) || Stage().Telling?)
      requires RunningRow(story) == Some(row) && row < |db.steps|
      requires ended.Ended? || ended.Told?
      modifies this`draft, this`db, this`added, this`turn, this`budget, this`story, this`sent
      ensures Safe() && Later(At(old(db), old(story)), At(db, story), others == [])
      ensures Spends(old(budget), budget, 3, o)
      ensures sent == old(sent) || sent == old(sent) + [notice]
      ensures o == Completed ==> sent == old(sent) + [notice]
      ensures o == Completed ==> Synced() && Stage() == ended && Seen().saved == old(Seen().saved)
      ensures o == Completed ==> Kept(At(old(db), old(story)), At(db, story), others == [])
    {
      hide Unique, HasKey, OwnRows, Keys, StoredKeys, Save, IsStory, ViewAfter, SetupFailures, Own, Can;
      o := TellUser(notice, createsSettings);
      if o == Stopped { return; }
      ghost var n := At(db, story);
      o := FinishStep(row, Succeeded, ended);
      if o == Completed { LandedKept(n, At(db, story), others == []); }
    }

    /** `_notify`: step 7 begins, the notice goes out, the settings row is read, step 7 ends. */
    method Notify(notice: Notice, createsSettings: bool, began: Stage, ended: Stage) returns (o: Outcome)
      requires Synced() && NextStage(Stage(), began) && NextStage(began, ended)
      requires (began == Begun(7) || began.Telling?) && (ended.Ended? || ended.Told?)
      modifies this`draft, this`db, this`added, this`turn, this`budget, this`story, this`sent
      ensures Safe() && Later(At(old(db), old(story)), At(db, story), others == [])
      ensures Spends(old(budget), budget, 4, o)
      ensures sent == old(sent) || sent == old(sent) + [notice]
      ensures o == Completed ==> sent == old(sent) + [notice]
      ensures o == Completed ==> Synced() && Stage() == ended && Seen().saved == old(Seen().saved)
      ensures o == Completed ==> Kept(At(old(db), old(story)), At(db, story), others == [])
    {
      hide Unique, HasKey, OwnRows, Keys, StoredKeys, Save, IsStory, ViewAfter, SetupFailures, Own, Can;
      ghost var m := At(db, story);
      var row;
      o, row := BeginStep(7, began);
      if o == Stopped { return; }
      LandedKept(m, At(db, story), others == []);
      o := TellAndFinish(row, notice, createsSettings, ended);
    }

    /** Commits the terminal status. */
    method EndRun(ok: bool) returns (o: Outcome)
      requires Synced() && if ok then Stage() == Ended(7) else Stage().Told?
      modifies this`draft, this`db, this`added, this`turn, this`budget, this`story
      ensures Safe() && Later(At(old(db), old(story)), At(db, story), others == [])
      ensures Spends(old(budget), budget, 1, o)
      ensures o == Completed ==> Synced() && Seen().saved == old(Seen().saved)
      ensures o == Completed ==> Stage() == if ok then Won(false) else Lost(StageOf(old(story)).value.step, false)
      ensures o == Completed ==> Kept(At(old(db), old(story)), At(db, story), others == [])
    {
      hide Unique, HasKey, OwnRows, Keys, StoredKeys, Save;
      ghost var m := At(db, story);
      draft := draft.(status := Some(if ok then Success else Failed));
      o := Commit(OnRow(Finishes(ok)));
      if o == Completed { LandedKept(m, At(db, story), others == []); }
    }

    /** Moves the file, after the terminal status has been committed. */
    method MoveFile(to: Stage) returns (o: Outcome)
      requires Synced() && NextStage(Stage(), to) && (Stage().Won? || Stage().Lost?)
      modifies this`db, this`turn, this`budget, this`story, this`moves
      ensures Safe() && Later(At(old(db), old(story)), At(db, story), others == [])
      ensures Spends(old(budget), budget, 1, o)
      ensures o == Completed ==> Synced() && Stage() == to && Seen().saved == old(Seen().saved)
      ensures o == Completed ==> moves == old(moves) + [if to.Won? then ToProcessed else ToFailed]
      ensures Kept(At(old(db), old(story)), At(db, story), others == [])
    {
      hide Unique, HasKey, OwnRows, Keys, StoredKeys, Save;
      o := Point();
      if o == Completed {
        moves := moves + [if to.Won? then ToProcessed else ToFailed];
        story := Then(story, FileMoves(to));
      }
    }

    /** The terminal status, then the file. */
    method Close(ok: bool) returns (o: Outcome)
      requires Synced() && if ok then Stage() == Ended(7) else Stage().Told?
      modifies this`draft, this`db, this`added, this`turn, this`budget, this`story, this`moves
      ensures Safe() && Later(At(old(db), old(story)), At(db, story), others == [])
      ensures Spends(old(budget), budget, 2, o)
      ensures o == Completed ==> Synced() && Seen().saved == old(Seen().saved)
      ensures o == Completed ==> Stage() == if ok then Won(true) else Lost(StageOf(old(story)).value.step, true)
      ensures o == Completed ==> Kept(At(old(db), old(story)), At(db, story), others == [])
    {
      hide Unique, HasKey, OwnRows, Keys, StoredKeys, Save, IsStory, ViewAfter, SetupFailures, Own, Can;
      o := EndRun(ok);
      if o == Stopped { return; }
      o := MoveFile(if ok then Won(true) else Lost(StageOf(story).value.step, true));
    }

    /** `_fail_run`: notify, then the terminal status, then the file. */
    method FailRun(createsSettings: bool) returns (o: Outcome)
      requires Synced() && Stage().Broke? && MayFail(Stage().step)
      modifies this`draft, this`db, this`added, this`turn, this`budget, this`story, this`sent, this`moves
      ensures Safe() && Later(At(old(db), old(story)), At(db, story), others == [])
      ensures Spends(old(budget), budget, 6, o)
      ensures sent == old(sent) || sent == old(sent) + [Notice(NotifiedFailed, 0)]
      ensures o == Completed ==> sent == old(sent) + [Notice(NotifiedFailed, 0)]
      ensures o == Completed ==> Synced() && Stage() == Lost(StageOf(old(story)).value.step, true)
    {
      hide Unique, HasKey, OwnRows, Keys, StoredKeys, Save, IsStory, ViewAfter, SetupFailures, Own, Can;
      var k := StageOf(story).value.step;
      o := Notify(Notice(NotifiedFailed, 0), createsSettings, Telling(k), Told(k));
      if o == Stopped { return; }
      o := Close(false);
    }

    /** One of the steps 1 to 5: its row appears, its work ends well or not, its row is finished, and
        a failure fails the run. */
    method RunStep(number: nat, good: bool, status: StepStatus, createsSettings: bool)
      returns (o: Outcome, passed: bool)
      requires Synced() && NextStage(Stage(), Begun(number)) && 1 <= number <= 5
      requires number == 1 ==> Opened(story)
      requires MayFinish(Begun(number), Ended(number), status) && (!good ==> MayFail(number))
      modifies this`draft, this`db, this`added, this`turn, this`budget, this`story, this`sent, this`moves
      ensures Safe() && Later(At(old(db), old(story)), At(db, story), others == [])
      ensures Spends(old(budget), budget, if good then 2 else 8, o)
      ensures sent == old(sent) || (!good && sent == old(sent) + [Notice(NotifiedFailed, 0)])
      ensures o == Completed ==> passed == good && Synced()
      ensures o == Completed ==> Stage() == if good then Ended(number) else Lost(number, true)
      ensures o == Completed && !good ==> sent == old(sent) + [Notice(NotifiedFailed, 0)]
      ensures o == Completed && good ==> Seen().saved == old(Seen().saved)
      ensures o == Completed && good ==> Kept(At(old(db), old(story)), At(db, story), others == [])
      ensures o == Completed && good && number >= 2 ==> StepOf(Seen().steps, number) == status
    {
      hide Unique, HasKey, OwnRows, Keys, StoredKeys, Save, IsStory, ViewAfter, SetupFailures, Own, Can, StepOf;
      ghost var m := At(db, story);
      passed := good;
      var row;
      o, row := BeginStep(number, Begun(number));
      if o == Stopped { return; }
      LandedKept(m, At(db, story), others == []);
      ghost var n := At(db, story);
      o := FinishStep(row, if good then status else Errored, if good then Ended(number) else Broke(number));
      if o == Stopped { return; }
      LandedKept(n, At(db, story), others == []);
      if !good {
        o := FailRun(createsSettings);
      } else if number >= 2 {
        EndedShows(story, number);
      }
    }

    /** Commits the inserted rows, their count and the end of step 6 together. */
    method CommitSave(row: nat, events: seq<Extracted>, newCount: nat, ghost m: Moment) returns (o: Outcome)
      requires SavedBatch(events, newCount, m) && Stage() == Begun(6) && draft == CLEAN
      requires RunningRow(story) == Some(row) && row < |db.steps|
      modifies this`draft, this`db, this`added, this`turn, this`budget, this`story
      ensures Safe() && Later(At(old(db), old(story)), At(db, story), others == [])
      ensures Spends(old(budget), budget, 1, o)
      ensures o == Completed ==> Synced() && Stage() == Ended(6) && Seen().saved == old(Seen().saved + added)
      ensures o == Completed ==> Landed(At(old(db), old(story)), At(db, story), old(added), others == [])
    {
      hide Unique, HasKey, OwnRows, Keys, StoredKeys, Save;
      draft := draft.(count := Some(newCount));
      o := FinishStep(row, Succeeded, Ended(6));
    }

    /** What the rows of a saved batch come to once they have landed. */
    lemma LandedBatch(batch: seq<Extracted>, before: seq<Row>, m: Moment, n: Moment, rows: seq<Row>)
      requires Considered(batch, |batch|, before, m.db.events, rows) && Landed(m, n, rows, others == [])
      ensures Keys(batch) <= StoredKeys(n.db.events, user) && FirstOccurrences(rows, batch)
      ensures others == [] ==> n.db.events == Save(before, user, run, batch)
    {
      var k := |n.db.events| - |rows|;
      assert batch[..|batch|] == batch;
      assert n.db.events == n.db.events[..k] + rows;
      KeysKept(m.db.events, n.db.events[..k], rows);
    }

    /** The rest of step 6 once it has begun. */
    method SaveAndCommit(row: nat, events: seq<Extracted>) returns (o: Outcome, newCount: nat)
      requires Synced() && Stage() == Begun(6) && Seen().saved == []
      requires RunningRow(story) == Some(row) && row < |db.steps|
      modifies this`draft, this`db, this`added, this`turn, this`budget, this`story, this`pending, this`violated
      ensures Safe() && Later(At(old(db), old(story)), At(db, story), others == [])
      ensures Ends(old(budget), |events| + 2, o) && (violated ==> !Calm(others, user, events))
      ensures o == Completed ==> Synced() && Stage() == Ended(6) && newCount == |Seen().saved|
      ensures o == Completed ==> Keys(events) <= StoredKeys(db.events, user)
      ensures o == Completed ==> FirstOccurrences(Seen().saved, events)
      ensures o == Completed && others == [] ==> db.events == Save(old(db).events, user, run, events)
    {
      hide Unique, HasKey, OwnRows, Keys, StoredKeys, Save, Calm, FirstOccurrences;
      hide IsStory, ViewAfter, SetupFailures, Own, Can;
      ghost var n := At(db, story);
      o, newCount := DeduplicateAndSave(events);
      if o == Stopped { return; }
      ghost var p, rows := At(db, story), added;
      o := CommitSave(row, events, newCount, n);
      if o == Completed {
        LandedBatch(events, n.db.events, p, At(db, story), rows);
        assert [] + rows == rows;
      }
    }

    /** Step 6. */
    method SaveEvents(events: seq<Extracted>) returns (o: Outcome, newCount: nat)
      requires Synced() && Stage() == Ended(5)
      modifies this`draft, this`db, this`added, this`turn, this`budget, this`story, this`pending, this`violated
      ensures Safe() && Later(At(old(db), old(story)), At(db, story), others == [])
      ensures Ends(old(budget), |events| + 3, o) && (violated ==> !Calm(others, user, events))
      ensures o == Completed ==> Synced() && Stage() == Ended(6) && newCount == |Seen().saved|
      ensures o == Completed ==> Keys(events) <= StoredKeys(db.events, user)
      ensures o == Completed ==> FirstOccurrences(Seen().saved, events)
      ensures o == Completed && others == [] ==> db.events == Save(old(db).events, user, run, events)
    {
      hide Unique, HasKey, OwnRows, Keys, StoredKeys, Save, Calm, FirstOccurrences;
      hide IsStory, ViewAfter, SetupFailures, Own, Can;
      ghost var m := At(db, story);
      newCount := 0;
      var row;
      o, row := BeginStep(6, Begun(6));
      if o == Stopped { return; }
      StoryFacts(story);
      LandedKept(m, At(db, story), others == []);
      o, newCount := SaveAndCommit(row, events);
    }

    /** Everything after the events are saved. */
    method Succeed(newCount: nat, createsSettings: bool) returns (o: Outcome)
      requires Synced() && Stage() == Ended(6)
      modifies this`draft, this`db, this`added, this`turn, this`budget, this`story, this`sent, this`moves
      ensures Safe() && Later(At(old(db), old(story)), At(db, story), others == [])
      ensures Spends(old(budget), budget, 6, o)
      ensures var notice := Notice(if newCount == 0 then NotifiedNoNewEvents else NotifiedSuccess, newCount);
              && (sent == old(sent) || sent == old(sent) + [notice])
              && (o == Completed ==> sent == old(sent) + [notice])
      ensures o == Completed ==> Synced() && Stage() == Won(true) && Seen().saved == old(Seen().saved)
      ensures o == Completed ==> Kept(At(old(db), old(story)), At(db, story), others == [])
    {
      hide Unique, HasKey, OwnRows, Keys, StoredKeys, Save, IsStory, ViewAfter, SetupFailures, Own, Can;
      if newCount == 0 {
        o := Notify(Notice(NotifiedNoNewEvents, 0), createsSettings, Begun(7), Ended(7));
      } else {
        o := Notify(Notice(NotifiedSuccess, newCount), createsSettings, Begun(7), Ended(7));
      }
      if o == Stopped { return; }
      o := Close(true);
    }

    /** The first commit: the run is IN_PROGRESS, which is written only if another status was loaded. */
    method Start() returns (o: Outcome)
      requires Synced() && Stage() == Claimed && !Opened(story)
      modifies this`draft, this`db, this`added, this`turn, this`budget, this`story
      ensures Safe() && Later(At(old(db), old(story)), At(db, story), others == [])
      ensures Spends(old(budget), budget, 1, o)
      ensures o == Completed ==> Synced() && Stage() == Claimed && Opened(story)
      ensures o == Completed ==> Kept(At(old(db), old(story)), At(db, story), others == [])
    {
      hide Unique, HasKey, OwnRows, Keys, StoredKeys, Save;
      ghost var m := At(db, story);
      var loaded := db.status;
      if SetupFailures(story) == 0 { PlainHistory(story); }
      if loaded != InProgress { draft := draft.(status := Some(InProgress)); }
      o := Commit(OnRow(Begins(loaded)));
      if o == Completed { LandedKept(m, At(db, story), others == []); }
    }

    /** The first commit and steps 1 and 2: whether a conversation came out of the file. */
    method Extract(w: World) returns (o: Outcome, passed: bool)
      requires Synced() && Stage() == Claimed && !Opened(story)
      modifies this`draft, this`db, this`added, this`turn, this`budget, this`story, this`sent, this`moves
      ensures Safe() && Later(At(old(db), old(story)), At(db, story), others == [])
      ensures Spends(old(budget), budget, if Unreadable(w) == None then 5 else 11, o)
      ensures sent == old(sent) || (Unreadable(w).Some? && sent == old(sent) + [Notice(NotifiedFailed, 0)])
      ensures o == Completed ==> Synced() && (passed <==> Unreadable(w) == None)
      ensures o == Completed && passed ==>
                Stage() == Ended(2) && Kept(At(old(db), old(story)), At(db, story), others == [])
      ensures o == Completed && passed ==> StepOf(Seen().steps, 2) == if w.isArchive then Succeeded else Skipped
      ensures o == Completed && !passed ==>
                Stage() == Lost(Unreadable(w).value, true) && sent == old(sent) + [Notice(NotifiedFailed, 0)]
    {
      hide Unique, HasKey, OwnRows, Keys, StoredKeys, Save, Calm, FirstOccurrences;
      hide IsStory, ViewAfter, SetupFailures, Own, Can, RunningRow, StageOf, StepOf;
      passed := false;
      o := Start();
      if o == Stopped { return; }
      o, passed := RunStep(1, w.downloads, Succeeded, w.createsSettings);
      if o == Stopped || !passed { return; }
      var good := if w.isArchive then w.unpacks else !w.hasNul;
      o, passed := RunStep(2, good, if w.isArchive then Succeeded else Skipped, w.createsSettings);
    }

    /** Steps 3 to 5: whether events came out of the conversation. */
    method Interpret(w: World) returns (o: Outcome, passed: bool)
      requires Synced() && Stage() == Ended(2)
      modifies this`draft, this`db, this`added, this`turn, this`budget, this`story, this`sent, this`moves
      ensures Safe() && Later(At(old(db), old(story)), At(db, story), others == [])
      ensures Spends(old(budget), budget, if Unanswered(w) == None then 6 else 12, o)
      ensures sent == old(sent) || (Unanswered(w).Some? && sent == old(sent) + [Notice(NotifiedFailed, 0)])
      ensures o == Completed ==> Synced() && (passed <==> Unanswered(w) == None)
      ensures o == Completed && passed ==>
                Stage() == Ended(5) && Kept(At(old(db), old(story)), At(db, story), others == [])
      ensures o == Completed && !passed ==>
                Stage() == Lost(Unanswered(w).value, true) && sent == old(sent) + [Notice(NotifiedFailed, 0)]
    {
      hide Unique, HasKey, OwnRows, Keys, StoredKeys, Save, Calm, FirstOccurrences;
      hide IsStory, ViewAfter, SetupFailures, Own, Can, RunningRow, StageOf, StepOf;
      o, passed := RunStep(3, true, Succeeded, w.createsSettings);
      if o == Stopped { return; }
      o, passed := RunStep(4, w.answers, Succeeded, w.createsSettings);
      if o == Stopped || !passed { return; }
      o, passed := RunStep(5, w.parsed.Some?, Succeeded, w.createsSettings);
    }

    /** Step 6 and what follows it. */
    method SaveAndSucceed(w: World) returns (o: Outcome)
      requires Synced() && Stage() == Ended(5) && w.parsed.Some?
      modifies this`draft, this`db, this`added, this`turn, this`budget, this`story, this`pending
      modifies this`violated, this`sent, this`moves
      ensures Safe() && Later(At(old(db), old(story)), At(db, story), others == [])
      ensures Ends(old(budget), |w.parsed.value| + 9, o) && (violated ==> !Calm(others, user, w.parsed.value))
      ensures |sent| <= |old(sent)| + 1
      ensures o == Completed ==> Synced() && Stage() == Won(true)
      ensures o == Completed ==>
                var n := |Seen().saved|;
                && sent == old(sent) + [Notice(if n == 0 then NotifiedNoNewEvents else NotifiedSuccess, n)]
                && Keys(w.parsed.value) <= StoredKeys(db.events, user)
                && FirstOccurrences(Seen().saved, w.parsed.value)
      ensures o == Completed && others == [] ==> db.events == Save(old(db).events, user, run, w.parsed.value)
    {
      hide Unique, HasKey, OwnRows, Keys, StoredKeys, Save, IsStory, ViewAfter, SetupFailures, Own, Can;
      var newCount;
      o, newCount := SaveEvents(w.parsed.value);
      if o == Stopped { return; }
      ghost var rows := db.events;
      o := Succeed(newCount, w.createsSettings);
      if o == Completed { StoredKeysGrow(rows, db.events, user); }
    }

    /** Steps 3 to 7 and the end of the run. */
    method Process(w: World) returns (o: Outcome)
      requires Synced() && Stage() == Ended(2) && Unreadable(w) == None
      modifies this`draft, this`db, this`added, this`turn, this`budget, this`story, this`pending
      modifies this`violated, this`sent, this`moves
      ensures Safe() && Later(At(old(db), old(story)), At(db, story), others == [])
      ensures Ends(old(budget), if Unanswered(w) == None then 15 + |w.parsed.value| else 12, o)
      ensures violated ==> Unanswered(w) == None && !Calm(others, user, w.parsed.value)
      ensures |sent| <= |old(sent)| + 1
      ensures o == Completed ==> StageOf(story) == Some(FinalStage(w)) && |sent| == |old(sent)| + 1
      ensures o == Completed && Unanswered(w).Some? ==> sent[|old(sent)|] == Notice(NotifiedFailed, 0)
      ensures o == Completed && Unanswered(w) == None ==>
                var n := |Seen().saved|;
                && sent[|old(sent)|] == Notice(if n == 0 then NotifiedNoNewEvents else NotifiedSuccess, n)
                && Keys(w.parsed.value) <= StoredKeys(db.events, user)
                && FirstOccurrences(Seen().saved, w.parsed.value)
                && (others == [] ==> db.events == Save(old(db).events, user, run, w.parsed.value))
    {
      hide Unique, HasKey, OwnRows, Keys, StoredKeys, Save, Calm, FirstOccurrences;
      hide IsStory, ViewAfter, SetupFailures, Own, Can;
      var passed;
      o, passed := Interpret(w);
      if o == Completed && passed {
        o := SaveAndSucceed(w);
      }
    }

    /** How many suspensions an execution takes. */
    function Cost(w: World): nat {
      if Unreadable(w).Some? then 11
      else if Unanswered(w).Some? then 17
      else 20 + |w.parsed.value|
    }

    /** `run_pipeline`. It is cut off only for want of suspensions to survive, or where another session has
        committed a key of the batch between the check and the insert; otherwise it ends in the one stage
        its collaborators' answers determine, and a successful one has stored every key of the batch,
        counted the rows it inserted, and announced that count. At most one notice goes out. At every
        moment, and wherever it stops, the history of the run is legal if and only if no storage setup has
        failed for it. */
    method RunPipeline(w: World) returns (o: Outcome)
      requires Synced() && Stage() == Claimed && !Opened(story)
      modifies this
      ensures Safe() && (Legal(Views(story)) <==> db.setupFailures == 0)
      ensures Views(old(story)) <= Views(story) && (others == [] ==> db.setupFailures == old(db).setupFailures)
      ensures Ends(old(budget), Cost(w), o)
      ensures violated ==> Unreadable(w) == None && Unanswered(w) == None && !Calm(others, user, w.parsed.value)
      ensures |sent| <= |old(sent)| + 1
      ensures o == Completed ==> StageOf(story) == Some(FinalStage(w)) && |sent| == |old(sent)| + 1
      ensures o == Completed ==> ShowsAnswers(w, Seen(), db.setupFailures > 0)
      ensures o == Completed && !FinalStage(w).Won? ==> sent[|old(sent)|] == Notice(NotifiedFailed, 0)
      ensures o == Completed && FinalStage(w).Won? ==>
                && sent[|old(sent)|] == Notice(if db.count == 0 then NotifiedNoNewEvents else NotifiedSuccess, db.count)
                && db.count == |Seen().saved|
                && Keys(w.parsed.value) <= StoredKeys(db.events, user)
                && FirstOccurrences(Seen().saved, w.parsed.value)
                && SavedAmongOthers(db.events, user, run, w.parsed.value)
                && (others == [] ==> db.events == Save(old(db).events, user, run, w.parsed.value))
    {
      hide Unique, HasKey, OwnRows, Keys, StoredKeys, Save, Calm, FirstOccurrences, SavedAmongOthers;
      hide IsStory, ViewAfter, SetupFailures, StageOf, StepOf, ShowsAnswers, Views, Legal;
      var passed;
      o, passed := Extract(w);
      ghost var extracted := story;
      if o == Completed && passed {
        o := Process(w);
        if o == Completed { FinalStatusStays(extracted, story, 2); }
      }
      if o == Completed { LastStageShowsAnswers(w, story); }
      LegalIff(story);
      StoryFacts(story);
      if o == Completed && FinalStage(w).Won? { OwnInColumns(db.events, w.parsed.value); }
    }
  }

  // ---------- The unique key can be violated ----------

  /** While run 0 of user "u" saves an event, another user and then run 1 of its own user commit the same
      event: the first after the save has begun, the second after its duplicate check. */
  function Others(x: Extracted): seq<Other> {
    [CommitsEvent(Row("v", 2, x)), CommitsEvent(Row("u", 1, x))]
  }

  lemma CheckedThenTaken(x: Extracted)
    ensures SaveAmong("u", 0, Others(x), [x], [], 0) ==
            Clash(Row("u", 0, x), [Row("v", 2, x)], [Row("v", 2, x), Row("u", 1, x)])
    ensures !HasKey([Row("v", 2, x)], "u", KeyOf(x))
  {
    var v, u, mine := Row("v", 2, x), Row("u", 1, x), Row("u", 0, x);
    assert [v] + [] == [v] && [] + [v] == [v] && [v] + [u] == [v, u] && [v, u] + [] == [v, u];
    assert [v, u][1] == u && !HasKey([v], "u", KeyOf(x)) && HasKey([v, u], "u", KeyOf(x));
    var start, checked := Course([], [], None, [], 0), Course([v], [], Some(mine), [v], 1);
    assert AfterTurn(start, Others(x), 0) == [v] && AfterTurn(checked, Others(x), 0) == [v, u];
    assert {} + {KeyOf(x)} == {KeyOf(x)} && start.rows + Inserted(None) == [];
    assert Saves("u", 0, Others(x), [x], 1, {KeyOf(x)}, checked) == Clash(mine, [v], [v, u]);
    assert Saves("u", 0, Others(x), [x], 0, {}, start) == Saves("u", 0, Others(x), [x], 1, {KeyOf(x)}, checked);
  }

  /** The execution of run 0 at the beginning of step 6, without events in the table, with these sessions to
      come. */
  method AtStepSix(x: Extracted) returns (e: Execution)
    ensures fresh(e) && e.Synced() && e.Stage() == Begun(6) && e.user == "u" && e.run == 0
    ensures e.db.events == [] && e.others == Others(x) && e.turn == 0 && e.budget == 2
  {
    OpenedRun();
    SmoothRun(OPENED, 5);
    SmoothStep(Smooth(OPENED, 5), 6);
    var story := Then(Smooth(OPENED, 5), StepBegins(Begun(6)));
    assert IsStory(story) && StageOf(story) == Some(Begun(6));
    StoryFacts(story);
    hide IsStory, ViewAfter, StageOf, Smooth, Unique;
    assert Unique([]) && OwnRows([], 0) == [];
    e := new Execution("u", 0, story, [], Others(x), 2);
  }

  /** The constraint that the duplicate check is there to avoid can be hit in step 6: at the check there is no
      event with the key, then another run of the same user commits one, and at the insert it is there. */
  method KeyTakenAfterCheck(x: Extracted) returns (e: Execution, o: Outcome)
    ensures fresh(e) && e.Safe() && StageOf(e.story) == Some(Begun(6)) && e.violated && o == Stopped
    ensures var end := SaveAmong("u", 0, Others(x), [x], [], 0);
            && e.IsClash(end) && end.row == Row("u", 0, x)
            && !HasKey(end.checked, "u", KeyOf(x)) && Row("u", 1, x) in e.db.events + e.added
  {
    CheckedThenTaken(x);
    e := AtStepSix(x);
    hide SaveAmong, HasKey, Unique, OwnRows, IsStory, ViewAfter, SetupFailures, Own, RunningRow, Views, Others, Calm;
    var count;
    o, count := e.DeduplicateAndSave([x]);
    assert (e.db.events + e.added)[1] == Row("u", 1, x);
  }
}
