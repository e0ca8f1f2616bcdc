/** The functions that read and write a user's prompt, as code over the table. Between any two of their
    operations other callers act. The `model` follows each operation with the matching action of the
    transition system, so whatever these methods do is a behaviour of it. */
module PromptService {
  import opened Wrappers
  import opened PromptRace

  function Actor(a: Action): Option<nat> {
    match a
    case Call(_, _) => None
    case Select(c) => Some(c)
    case CommitInsert(c) => Some(c)
    case Rollback(c) => Some(c)
    case SelectAgain(c) => Some(c)
    case CommitUpdate(c) => Some(c)
    case Die(c) => Some(c)
  }

  /** The steps of others leave a caller where it is. */
  lemma OthersLeaveCallerAlone(s: State, a: Action, c: nat)
    requires Enabled(s, a) && c < |s.callers| && Actor(a) != Some(c)
    ensures c < |Apply(s, a).callers| && Apply(s, a).callers[c] == s.callers[c]
  {
  }

  class Table {
    var rows: seq<Row>
    var model: State
    var others: seq<Action> // what other callers try to do, one step at each suspension
    var budget: nat         // suspensions to survive

    ghost predicate Valid()
      reads this
    {
      Reachable(model) && rows == model.rows
    }

    /** An empty table. */
    constructor (others: seq<Action>, budget: nat)
      ensures Valid() && model == INITIAL
    {
      rows, model := [], INITIAL;
      this.others, this.budget := others, budget;
      new;
      assert Possible(INITIAL, []) && After(INITIAL, []) == INITIAL;
    }

    /** Caller `c` stands at `pc`, and its call is this one. */
    ghost predicate Stands(c: nat, user: string, wish: Wish, pc: Pc)
      reads this
    {
      c < |model.callers| && model.callers[c] == Caller(user, wish, pc)
    }

    /** The model takes the action that the fields have just taken. */
    method Follow(a: Action)
      requires Reachable(model) && Enabled(model, a)
      modifies this`model
      ensures Reachable(model) && model == Apply(old(model), a)
    {
      ReachableStep(model, a);
      model := Apply(model, a);
    }

    /** A suspension point of caller `c`: another caller acts, or this one is cut off here. */
    method Await(c: nat) returns (o: Outcome)
      requires Valid() && c < |model.callers|
      modifies this
      ensures Valid() && c < |model.callers|
      ensures o == Completed ==> model.callers[c] == old(model).callers[c]
      ensures o == Stopped ==> model.callers[c].pc == Gone
      ensures o == Stopped <==> old(budget) == 0
      ensures budget == if o == Stopped then 0 else old(budget) - 1
    {
      if budget == 0 {
        Follow(Die(c));
        return Stopped;
      }
      budget := budget - 1;
      if others != [] {
        var a := others[0];
        others := others[1..];
        if Enabled(model, a) && Actor(a) != Some(c) {
          OthersLeaveCallerAlone(model, a, c);
          Follow(a);
          rows := model.rows;
        }
      }
      return Completed;
    }

    /** `scalar_one_or_none`: the user's row; more than one would be an error. */
    method GetUserPrompt(user: string) returns (found: Option<nat>)
      requires OneRowPerUser(rows)
      ensures found == Find(rows, user)
    {
      found := None;
      for i := 0 to |rows|
        invariant found == Find(rows[..i], user)
      {
        assert rows[..i + 1][..i] == rows[..i];
        if rows[i].user == user {
          if found.Some? {
            assert false;
          }
          found := Some(i);
        }
      }
      assert rows[..|rows|] == rows;
    }

    /** The insert and its commit; false on a unique violation. */
    method Insert(user: string, text: string) returns (inserted: bool)
      modifies this`rows
      ensures inserted <==> Find(old(rows), user) == None
      ensures rows == if inserted then old(rows) + [Row(user, text)] else old(rows)
    {
      inserted := Find(rows, user) == None;
      if inserted {
        rows := rows + [Row(user, text)];
      }
    }

    /** Assigns the text of a loaded row and commits. */
    method Save(row: nat, loaded: string, text: string)
      requires row < |rows|
      modifies this`rows
      ensures rows == old(rows)[row := old(rows)[row].(text := Flushed(old(rows)[row].text, loaded, text))]
    {
      if text != loaded {
        rows := rows[row := rows[row].(text := text)];
      }
    }

    /** What follows a unique violation: roll back, and find the winner's row. */
    method FindWinner(c: nat, user: string, ghost wish: Wish) returns (o: Outcome, row: nat)
      requires Valid() && Stands(c, user, wish, RollBack)
      modifies this
      ensures Valid() && Spends(old(budget), budget, 2, o)
      ensures o == Completed ==>
                row < |rows| && rows[row].user == user
                && Stands(c, user, wish, if wish.sets then Update(row, rows[row].text) else Returned(row))
    {
      row := 0;
      :- Await(c);
      Follow(Rollback(c));
      :- Await(c);
      ReachableInv(model);
      assert CallerOk(model, c);
      var existing := GetUserPrompt(user);
      Follow(SelectAgain(c));
      if existing == None {
        assert false;
      }
      return Completed, existing.value;
    }

    /** Inserts a row for a user who had none at the select; on a unique violation finds the winner's. */
    method InsertOrFind(c: nat, user: string, wish: Wish) returns (o: Outcome, row: nat, inserted: bool)
      requires Valid() && Stands(c, user, wish, Pc.Insert)
      modifies this
      ensures Valid() && Spends(old(budget), budget, 3, o)
      ensures o == Completed ==>
                && row < |rows| && rows[row].user == user
                && Stands(c, user, wish, if inserted || !wish.sets then Returned(row) else Update(row, rows[row].text))
      ensures o == Completed && inserted ==> Committed(c, wish.text, row)
    {
      row, inserted := 0, false;
      o := Await(c);
      if o == Stopped { return; }
      inserted := Insert(user, wish.text);
      Follow(CommitInsert(c));
      if inserted {
        return Completed, |rows| - 1, true;
      }
      o, row := FindWinner(c, user, wish);
    }

    /** Caller `c` made the last commit, on this row, which now holds the text unless it is the one that
        the caller had loaded. */
    ghost predicate Committed(c: nat, text: string, row: nat)
      reads this
    {
      && model.commits != [] && row < |rows|
      && var last := model.commits[|model.commits| - 1];
         last.caller == c && last.row == row && (rows[row].text == text || last.loaded == Some(text))
    }

    /** In a valid table a row of the user is the one that a select finds. */
    lemma RowFound(user: string, row: nat)
      requires Valid() && row < |rows| && rows[row].user == user
      ensures OneRowPerUser(rows) && Find(rows, user) == Some(row)
    {
      ReachableInv(model);
    }

    /** `get_or_create_user_prompt`, and `get_or_create_user_settings`: the user's one row, whoever
        created it; the unique violation never gets out, and only being cut off keeps it from returning. */
    method GetOrCreateUserPrompt(c: nat, user: string, seed: string) returns (o: Outcome, row: nat)
      requires Valid() && Stands(c, user, Wish(seed, false), Read)
      modifies this
      ensures Valid() && Spends(old(budget), budget, 3, o)
      ensures o == Completed ==>
                && OneRowPerUser(rows) && Find(rows, user) == Some(row)
                && Stands(c, user, Wish(seed, false), Returned(row))
    {
      ReachableInv(model);
      var found := GetUserPrompt(user);
      Follow(Select(c));
      if found.Some? {
        return Completed, found.value;
      }
      var inserted;
      o, row, inserted := InsertOrFind(c, user, Wish(seed, false));
      if o == Completed { RowFound(user, row); }
    }

    /** `set_user_prompt`: unless it is cut off, the last thing it does is to commit on the user's one
        row. */
    method SetUserPrompt(c: nat, user: string, text: string) returns (o: Outcome, row: nat)
      requires Valid() && Stands(c, user, Wish(text, true), Read)
      modifies this
      ensures Valid() && Spends(old(budget), budget, 4, o)
      ensures o == Completed ==>
                && OneRowPerUser(rows) && Find(rows, user) == Some(row)
                && Stands(c, user, Wish(text, true), Returned(row)) && Committed(c, text, row)
    {
      ReachableInv(model);
      var found := GetUserPrompt(user);
      Follow(Select(c));
      var inserted := false;
      if found == None {
        o, row, inserted := InsertOrFind(c, user, Wish(text, true));
        if o == Stopped { return; }
      } else {
        row := found.value;
      }
      if inserted {
        RowFound(user, row);
        return Completed, row;
      }
      o := UpdateLoaded(c, user, row, rows[row].text, text);
    }

    /** The end of a change to a row that exists. */
    method UpdateLoaded(c: nat, user: string, row: nat, loaded: string, text: string) returns (o: Outcome)
      requires Valid() && Stands(c, user, Wish(text, true), Update(row, loaded))
      modifies this
      ensures Valid() && Spends(old(budget), budget, 1, o)
      ensures o == Completed ==>
                && OneRowPerUser(rows) && Find(rows, user) == Some(row)
                && Stands(c, user, Wish(text, true), Returned(row)) && Committed(c, text, row)
    {
      o := Await(c);
      if o == Stopped { return; }
      ReachableInv(model);
      assert CallerOk(model, c);
      Save(row, loaded, text);
      Follow(CommitUpdate(c));
      RowFound(user, row);
    }
  }
}
