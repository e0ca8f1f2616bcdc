/** Concurrent readers and writers of a table with one row per user: select, insert, and on a unique
    violation roll back and read the winner's row. The same race guards prompts and settings. */
module PromptRace {
  import opened Wrappers

  datatype Row = Row(user: string, text: string)

  /** What a caller is after: the row, created with `text` if there is none; or, if `sets`, the row
      with `text` in it. */
  datatype Wish = Wish(text: string, sets: bool)

  /** Where a caller stands. An update knows the text that it loaded. */
  datatype Pc =
    | Read
    | Insert
    | RollBack
    | Reread
    | Update(row: nat, loaded: string)
    | Returned(row: nat)
    | Raised
    | Gone

  datatype Caller = Caller(user: string, wish: Wish, pc: Pc)

  /** A successful commit; `loaded` is none for an insert. */
  datatype Commit = Commit(caller: nat, row: nat, loaded: Option<string>)

  /** No row is ever deleted, so a row is named by its place. */
  datatype State = State(rows: seq<Row>, callers: seq<Caller>, commits: seq<Commit>)

  datatype Action =
    | Call(user: string, wish: Wish)
    | Select(caller: nat)
    | CommitInsert(caller: nat)
    | Rollback(caller: nat)
    | SelectAgain(caller: nat)
    | CommitUpdate(caller: nat)
    | Die(caller: nat)

  /** The row that a select for the user finds. */
  function Find(rows: seq<Row>, user: string): (r: Option<nat>)
    ensures r.Some? ==> r.value < |rows| && rows[r.value].user == user
    ensures r == None ==> forall i :: 0 <= i < |rows| ==> rows[i].user != user
  {
    if rows == [] then None
    else
      var before := Find(rows[..|rows| - 1], user);
      if before.Some? then before
      else if rows[|rows| - 1].user == user then Some(|rows| - 1)
      else None
  }

  predicate At(s: State, c: nat, pc: Pc) {
    c < |s.callers| && s.callers[c].pc == pc
  }

  predicate Enabled(s: State, a: Action) {
    match a
    case Call(_, _) => true
    case Select(c) => At(s, c, Read)
    case CommitInsert(c) => At(s, c, Insert)
    case Rollback(c) => At(s, c, RollBack)
    case SelectAgain(c) => At(s, c, Reread)
    case CommitUpdate(c) => c < |s.callers| && s.callers[c].pc.Update? && s.callers[c].pc.row < |s.rows|
    case Die(c) => c < |s.callers|
  }

  function GoTo(s: State, c: nat, pc: Pc): State
    requires c < |s.callers|
  {
    s.(callers := s.callers[c := s.callers[c].(pc := pc)])
  }

  /** A found row is returned as it is, or loaded to be changed. */
  function Found(s: State, c: nat, row: nat): Pc
    requires c < |s.callers| && row < |s.rows|
  {
    if s.callers[c].wish.sets then Update(row, s.rows[row].text) else Returned(row)
  }

  /** The text after a flush: an attribute set to the text that was loaded is no change. */
  function Flushed(stored: string, loaded: string, text: string): string {
    if loaded == text then stored else text
  }

  function Apply(s: State, a: Action): State
    requires Enabled(s, a)
  {
    match a
    case Call(user, wish) => s.(callers := s.callers + [Caller(user, wish, Read)])
    case Select(c) =>
      var found := Find(s.rows, s.callers[c].user);
      GoTo(s, c, if found.Some? then Found(s, c, found.value) else Insert)
    case CommitInsert(c) =>
      var caller := s.callers[c];
      if Find(s.rows, caller.user).Some? then GoTo(s, c, RollBack)
      else
        GoTo(s, c, Returned(|s.rows|)).(rows := s.rows + [Row(caller.user, caller.wish.text)],
                                        commits := s.commits + [Commit(c, |s.rows|, None)])
    case Rollback(c) => GoTo(s, c, Reread)
    case SelectAgain(c) =>
      var found := Find(s.rows, s.callers[c].user);
      GoTo(s, c, if found.Some? then Found(s, c, found.value) else Raised)
    case CommitUpdate(c) =>
      var caller, row := s.callers[c], s.callers[c].pc.row;
      var text := Flushed(s.rows[row].text, caller.pc.loaded, caller.wish.text);
      GoTo(s, c, Returned(row)).(rows := s.rows[row := s.rows[row].(text := text)],
                                 commits := s.commits + [Commit(c, row, Some(caller.pc.loaded))])
    case Die(c) => GoTo(s, c, Gone)
  }

  const INITIAL := State([], [], [])

  predicate Possible(s: State, actions: seq<Action>)
    decreases |actions|
  {
    actions == [] || (Enabled(s, actions[0]) && Possible(Apply(s, actions[0]), actions[1..]))
  }

  function After(s: State, actions: seq<Action>): State
    requires Possible(s, actions)
    decreases |actions|
  {
    if actions == [] then s else After(Apply(s, actions[0]), actions[1..])
  }

  ghost predicate Reachable(s: State) {
    exists actions :: Possible(INITIAL, actions) && After(INITIAL, actions) == s
  }

  // ---------- Invariants ----------

  predicate OneRowPerUser(rows: seq<Row>) {
    forall i, j :: 0 <= i < j < |rows| ==> rows[i].user != rows[j].user
  }

  predicate OwnRow(s: State, c: nat, row: nat)
    requires c < |s.callers|
  {
    row < |s.rows| && s.rows[row].user == s.callers[c].user
  }

  predicate CallerOk(s: State, c: nat)
    requires c < |s.callers|
  {
    match s.callers[c].pc
    case RollBack => Find(s.rows, s.callers[c].user).Some?
    case Reread => Find(s.rows, s.callers[c].user).Some?
    case Update(row, _) => OwnRow(s, c, row)
    case Returned(row) => OwnRow(s, c, row)
    case Raised => false
    case _ => true
  }

  /** The text of row `r` as the commits made it. */
  function Replay(commits: seq<Commit>, callers: seq<Caller>, r: nat): Option<string>
    requires forall k :: 0 <= k < |commits| ==> commits[k].caller < |callers|
  {
    if commits == [] then None
    else
      var last, before := commits[|commits| - 1], Replay(commits[..|commits| - 1], callers, r);
      var text := callers[last.caller].wish.text;
      if last.row != r || last.loaded == Some(text) then before else Some(text)
  }

  predicate CommitsOk(s: State) {
    forall k :: 0 <= k < |s.commits| ==> s.commits[k].caller < |s.callers| && s.commits[k].row < |s.rows|
  }

  predicate TextsOk(s: State)
    requires CommitsOk(s)
  {
    forall r {:trigger s.rows[r]} :: 0 <= r < |s.rows| ==> Replay(s.commits, s.callers, r) == Some(s.rows[r].text)
  }

  predicate Inv(s: State) {
    && OneRowPerUser(s.rows)
    && (forall c :: 0 <= c < |s.callers| ==> CallerOk(s, c))
    && CommitsOk(s) && TextsOk(s)
  }

  /** What any step may change: rows come and keep their users, callers keep their wishes. */
  predicate Evolves(s: State, s': State) {
    && |s.rows| <= |s'.rows| && |s.callers| <= |s'.callers|
    && (forall r :: 0 <= r < |s.rows| ==> s'.rows[r].user == s.rows[r].user)
    && (forall c :: 0 <= c < |s.callers| ==>
          s'.callers[c].user == s.callers[c].user && s'.callers[c].wish == s.callers[c].wish)
    && s.commits <= s'.commits
  }

  lemma ApplyEvolves(s: State, a: Action)
    requires Enabled(s, a)
    ensures Evolves(s, Apply(s, a))
  {
  }

  lemma FoundStays(s: State, s': State, user: string)
    requires Evolves(s, s') && Find(s.rows, user).Some?
    ensures Find(s'.rows, user).Some?
  {
    var r := Find(s.rows, user).value;
    assert s'.rows[r].user == user;
  }

  lemma KeepsOneRow(s: State, a: Action)
    requires OneRowPerUser(s.rows) && Enabled(s, a)
    ensures OneRowPerUser(Apply(s, a).rows)
  {
  }

  lemma KeepsCaller(s: State, a: Action, c: nat)
    requires Enabled(s, a) && c < |s.callers| && CallerOk(s, c)
    ensures c < |Apply(s, a).callers| && CallerOk(Apply(s, a), c)
  {
    ApplyEvolves(s, a);
    if Find(s.rows, s.callers[c].user).Some? { FoundStays(s, Apply(s, a), s.callers[c].user); }
  }

  lemma {:induction false} ReplayKeepsWishes(commits: seq<Commit>, callers: seq<Caller>, callers': seq<Caller>, r: nat)
    requires |callers| <= |callers'|
    requires forall c :: 0 <= c < |callers| ==> callers'[c].wish == callers[c].wish
    requires forall k :: 0 <= k < |commits| ==> commits[k].caller < |callers|
    ensures Replay(commits, callers', r) == Replay(commits, callers, r)
  {
    if commits != [] { ReplayKeepsWishes(commits[..|commits| - 1], callers, callers', r); }
  }

  lemma {:induction false} NothingToReplay(commits: seq<Commit>, callers: seq<Caller>, r: nat)
    requires forall k :: 0 <= k < |commits| ==> commits[k].caller < |callers| && commits[k].row != r
    ensures Replay(commits, callers, r) == None
  {
    if commits != [] { NothingToReplay(commits[..|commits| - 1], callers, r); }
  }

  lemma KeepsTexts(s: State, a: Action)
    requires CommitsOk(s) && TextsOk(s) && Enabled(s, a)
    ensures CommitsOk(Apply(s, a)) && TextsOk(Apply(s, a))
  {
    ApplyEvolves(s, a);
    var s' := Apply(s, a);
    forall r {:trigger s'.rows[r]} | 0 <= r < |s'.rows|
      ensures Replay(s'.commits, s'.callers, r) == Some(s'.rows[r].text)
    {
      ReplayKeepsWishes(s.commits, s.callers, s'.callers, r);
      if s'.commits != s.commits { assert s'.commits[..|s'.commits| - 1] == s.commits; }
      if r >= |s.rows| { NothingToReplay(s.commits, s.callers, r); }
    }
  }

  lemma KeepsInv(s: State, a: Action)
    requires Inv(s) && Enabled(s, a)
    ensures Inv(Apply(s, a))
  {
    KeepsOneRow(s, a);
    KeepsTexts(s, a);
    forall c | 0 <= c < |Apply(s, a).callers| ensures CallerOk(Apply(s, a), c) {
      if c < |s.callers| { KeepsCaller(s, a, c); }
    }
  }

  lemma {:induction false} BehaviourKeepsInv(s: State, actions: seq<Action>)
    requires Inv(s) && Possible(s, actions)
    ensures Inv(After(s, actions)) && Evolves(s, After(s, actions))
    decreases |actions|
  {
    if actions != [] {
      KeepsInv(s, actions[0]);
      ApplyEvolves(s, actions[0]);
      BehaviourKeepsInv(Apply(s, actions[0]), actions[1..]);
    }
  }

  lemma ReachableInv(s: State)
    requires Reachable(s)
    ensures Inv(s)
  {
    var actions :| Possible(INITIAL, actions) && After(INITIAL, actions) == s;
    BehaviourKeepsInv(INITIAL, actions);
  }

  lemma {:induction false} AfterOneMore(s: State, actions: seq<Action>, a: Action)
    requires Possible(s, actions) && Enabled(After(s, actions), a)
    ensures Possible(s, actions + [a]) && After(s, actions + [a]) == Apply(After(s, actions), a)
    decreases |actions|
  {
    if actions == [] {
      assert [a][1..] == [] && ([] + [a])[0] == a;
      assert Possible(Apply(s, a), []);
    } else {
      AfterOneMore(Apply(s, actions[0]), actions[1..], a);
      assert (actions + [a])[1..] == actions[1..] + [a];
    }
  }

  lemma ReachableStep(s: State, a: Action)
    requires Reachable(s) && Enabled(s, a)
    ensures Reachable(Apply(s, a))
  {
    var actions :| Possible(INITIAL, actions) && After(INITIAL, actions) == s;
    AfterOneMore(INITIAL, actions, a);
  }

  // ---------- What every caller gets ----------

  /** However many callers race, a user has at most one row, every caller that returns returns that
      row, and none ever gets the unique violation: after a rollback the winner's row is there. */
  lemma EveryCallerGetsTheRow(s: State, c: nat, d: nat)
    requires Reachable(s) && c < |s.callers| && d < |s.callers|
    ensures OneRowPerUser(s.rows)
    ensures s.callers[c].pc != Raised
    ensures s.callers[c].pc.Returned? ==> Find(s.rows, s.callers[c].user) == Some(s.callers[c].pc.row)
    ensures s.callers[c].pc.Returned? && s.callers[d].pc.Returned? && s.callers[c].user == s.callers[d].user ==>
              s.callers[c].pc.row == s.callers[d].pc.row
  {
    ReachableInv(s);
    assert CallerOk(s, c) && CallerOk(s, d);
  }

  /** A returned row stays its user's row for ever. */
  lemma ReturnedRowStays(s: State, more: seq<Action>, c: nat)
    requires Reachable(s) && Possible(s, more) && c < |s.callers| && s.callers[c].pc.Returned?
    ensures Find(After(s, more).rows, s.callers[c].user) == Some(s.callers[c].pc.row)
  {
    ReachableInv(s);
    BehaviourKeepsInv(s, more);
    assert CallerOk(s, c);
  }

  // ---------- Whose text stays ----------

  /** The last commit on a row leaves the caller's text in it if and only if the text is not the one
      that the caller had loaded, or the row held it anyway. */
  lemma LastCommitterWinsIff(s: State, k: nat, r: nat)
    requires Reachable(s) && k < |s.commits| && s.commits[k].row == r
    requires forall l :: k < l < |s.commits| ==> s.commits[l].row != r
    ensures CommitsOk(s) && r < |s.rows|
    ensures var text := s.callers[s.commits[k].caller].wish.text;
            s.rows[r].text == text <==>
            s.commits[k].loaded != Some(text) || Replay(s.commits[..k], s.callers, r) == Some(text)
  {
    ReachableInv(s);
    ReplaySkips(s.commits, s.callers, r, k + 1);
    assert s.commits[..k + 1][..k] == s.commits[..k];
  }

  lemma {:induction false} ReplaySkips(commits: seq<Commit>, callers: seq<Caller>, r: nat, k: nat)
    requires forall l :: 0 <= l < |commits| ==> commits[l].caller < |callers|
    requires k <= |commits| && forall l :: k <= l < |commits| ==> commits[l].row != r
    ensures Replay(commits, callers, r) == Replay(commits[..k], callers, r)
    decreases |commits|
  {
    if k == |commits| {
      assert commits[..k] == commits;
    } else {
      ReplaySkips(commits[..|commits| - 1], callers, r, k);
      assert commits[..|commits| - 1][..k] == commits[..k];
    }
  }

  /** A row "a" that one caller wrote and two more have loaded, to write "a" and "b". */
  lemma TwoLoaded() returns (s: State)
    ensures Reachable(s) && s.rows == [Row("u", "a")] && s.commits == [Commit(0, 0, None)]
    ensures s.callers == [Caller("u", Wish("a", true), Returned(0)), Caller("u", Wish("a", true), Update(0, "a")),
                          Caller("u", Wish("b", true), Update(0, "a"))]
  {
    assert Possible(INITIAL, []) && After(INITIAL, []) == INITIAL;
    s := INITIAL;
    s := Stepped(s, Call("u", Wish("a", true)));
    s := Stepped(s, Select(0));
    s := Stepped(s, CommitInsert(0));
    assert s == State([Row("u", "a")], [Caller("u", Wish("a", true), Returned(0))], [Commit(0, 0, None)]);
    s := Stepped(s, Call("u", Wish("a", true)));
    s := Stepped(s, Call("u", Wish("b", true)));
    s := Stepped(s, Select(1));
    s := Stepped(s, Select(2));
  }

  lemma Stepped(s: State, a: Action) returns (s': State)
    requires Reachable(s) && Enabled(s, a)
    ensures Reachable(s') && s' == Apply(s, a)
  {
    ReachableStep(s, a);
    s' := Apply(s, a);
  }

  /** Two writers load the same text "a"; one writes "b", then the other commits "a": the row keeps
      "b", though the last to commit wished "a". */
  lemma LastCommitterMayLose()
    ensures exists s :: Reachable(s) && |s.rows| == 1 && |s.commits| == 3 && s.commits[2].row == 0
                     && s.commits[2].caller < |s.callers|
                     && s.callers[s.commits[2].caller].wish == Wish("a", true) && s.rows[0].text == "b"
  {
    var s := TwoLoaded();
    s := Stepped(s, CommitUpdate(2));
    s := Stepped(s, CommitUpdate(1));
    assert s.commits == [Commit(0, 0, None), Commit(2, 0, Some("a")), Commit(1, 0, Some("a"))];
    assert s.rows == [Row("u", "b")];
  }
}
