/** The events table, its unique key, and what saving a batch of extracted events means. */
module Events {

  datatype Extracted = Extracted(kind: string, description: string, resolvedDate: string,
                                 rawDateText: string, agreedBy: seq<string>)

  type Key = (string, string)

  function KeyOf(e: Extracted): Key {
    (e.description, e.resolvedDate)
  }

  datatype Row = Row(user: string, run: nat, event: Extracted)

  /** Some row of `user` has this key. */
  predicate HasKey(rows: seq<Row>, user: string, key: Key) {
    exists i :: 0 <= i < |rows| && rows[i].user == user && KeyOf(rows[i].event) == key
  }

  /** UNIQUE(user_id, description, resolved_date). */
  predicate Unique(rows: seq<Row>) {
    forall i, j :: 0 <= i < j < |rows| && rows[i].user == rows[j].user ==>
      KeyOf(rows[i].event) != KeyOf(rows[j].event)
  }

  /** Saving a batch with nobody else writing: each event in turn becomes a row unless its key is
      already there. */
  function Save(rows: seq<Row>, user: string, run: nat, batch: seq<Extracted>): seq<Row>
    decreases |batch|
  {
    if batch == [] then rows
    else if HasKey(rows, user, KeyOf(batch[0])) then Save(rows, user, run, batch[1..])
    else Save(rows + [Row(user, run, batch[0])], user, run, batch[1..])
  }

  function Keys(batch: seq<Extracted>): set<Key> {
    set i | 0 <= i < |batch| :: KeyOf(batch[i])
  }

  function StoredKeys(rows: seq<Row>, user: string): set<Key> {
    set i | 0 <= i < |rows| && rows[i].user == user :: KeyOf(rows[i].event)
  }

  lemma StoredKeysAfterInsert(rows: seq<Row>, row: Row, user: string)
    ensures StoredKeys(rows + [row], user) ==
            StoredKeys(rows, user) + (if row.user == user then {KeyOf(row.event)} else {})
  {
    var all := rows + [row];
    forall k | k in StoredKeys(rows, user) ensures k in StoredKeys(all, user) {
      var i :| 0 <= i < |rows| && rows[i].user == user && KeyOf(rows[i].event) == k;
      assert all[i] == rows[i];
    }
    assert all[|rows|] == row;
  }

  /** Saving keeps the unique key, leaves every stored row in place, adds rows of this run only, and
      makes this user's keys the old keys together with the keys of the batch. */
  lemma {:induction false} SaveMeaning(rows: seq<Row>, user: string, run: nat, batch: seq<Extracted>)
    requires Unique(rows)
    ensures var saved := Save(rows, user, run, batch);
            && Unique(saved)
            && rows <= saved
            && (forall i :: |rows| <= i < |saved| ==> saved[i].user == user && saved[i].run == run)
            && StoredKeys(saved, user) == StoredKeys(rows, user) + Keys(batch)
    decreases |batch|
  {
    if batch != [] {
      assert Keys(batch) == {KeyOf(batch[0])} + Keys(batch[1..]) by {
        forall k | k in Keys(batch) ensures k in {KeyOf(batch[0])} + Keys(batch[1..]) {
          var i :| 0 <= i < |batch| && KeyOf(batch[i]) == k;
          if i > 0 { assert batch[1..][i - 1] == batch[i]; }
        }
        forall k | k in Keys(batch[1..]) ensures k in Keys(batch) {
          var i :| 0 <= i < |batch[1..]| && KeyOf(batch[1..][i]) == k;
          assert batch[i + 1] == batch[1..][i];
        }
      }
      var row := Row(user, run, batch[0]);
      if HasKey(rows, user, KeyOf(batch[0])) {
        SaveMeaning(rows, user, run, batch[1..]);
      } else {
        StoredKeysAfterInsert(rows, row, user);
        SaveMeaning(rows + [row], user, run, batch[1..]);
      }
    }
  }

  /** The number of rows saved is the number of keys that were not stored before. */
  lemma {:induction false} SaveCountsNewKeys(rows: seq<Row>, user: string, run: nat, batch: seq<Extracted>)
    requires Unique(rows)
    ensures |Save(rows, user, run, batch)| - |rows| == |Keys(batch) - StoredKeys(rows, user)|
  {
    SaveMeaning(rows, user, run, batch);
    var saved := Save(rows, user, run, batch);
    StoredKeysSize(rows, saved, user);
    assert Keys(batch) - StoredKeys(rows, user) == StoredKeys(saved, user) - StoredKeys(rows, user);
  }

  lemma {:induction false} StoredKeysSize(rows: seq<Row>, saved: seq<Row>, user: string)
    requires Unique(saved) && rows <= saved
    requires forall i {:trigger saved[i]} :: |rows| <= i < |saved| ==> saved[i].user == user
    ensures |StoredKeys(saved, user) - StoredKeys(rows, user)| == |saved| - |rows|
    decreases |saved|
  {
    if saved == rows {
      assert StoredKeys(saved, user) - StoredKeys(rows, user) == {};
    } else {
      var init, last := saved[..|saved| - 1], saved[|saved| - 1];
      assert saved == init + [last] && rows <= init;
      StoredKeysSize(rows, init, user);
      StoredKeysAfterInsert(init, last, user);
      StoredKeysGrow(rows, init, user);
      assert KeyOf(last.event) !in StoredKeys(init, user);
      assert StoredKeys(saved, user) - StoredKeys(rows, user) ==
             (StoredKeys(init, user) - StoredKeys(rows, user)) + {KeyOf(last.event)};
    }
  }

  lemma StoredKeysGrow(rows: seq<Row>, more: seq<Row>, user: string)
    requires rows <= more
    ensures StoredKeys(rows, user) <= StoredKeys(more, user)
  {
    forall k | k in StoredKeys(rows, user) ensures k in StoredKeys(more, user) {
      var i :| 0 <= i < |rows| && rows[i].user == user && KeyOf(rows[i].event) == k;
      assert more[i] == rows[i];
    }
  }

  /** Saving two batches one after the other is saving their concatenation. */
  lemma {:induction false} SaveTwoBatches(rows: seq<Row>, user: string, run: nat, a: seq<Extracted>, b: seq<Extracted>)
    ensures Save(Save(rows, user, run, a), user, run, b) == Save(rows, user, run, a + b)
    decreases |a|
  {
    if a == [] {
      assert a + b == b;
    } else {
      assert (a + b)[1..] == a[1..] + b;
      SaveTwoBatches(if HasKey(rows, user, KeyOf(a[0])) then rows else rows + [Row(user, run, a[0])],
                     user, run, a[1..], b);
    }
  }

  /** A batch whose keys are all stored adds nothing, whichever run saves it. */
  lemma {:induction false} SaveNothingNew(rows: seq<Row>, user: string, run: nat, batch: seq<Extracted>)
    requires Keys(batch) <= StoredKeys(rows, user)
    ensures Save(rows, user, run, batch) == rows
    decreases |batch|
  {
    if batch != [] {
      assert KeyOf(batch[0]) in Keys(batch);
      forall k | k in Keys(batch[1..]) ensures k in Keys(batch) {
        var i :| 0 <= i < |batch[1..]| && KeyOf(batch[1..][i]) == k;
        assert batch[i + 1] == batch[1..][i];
      }
      SaveNothingNew(rows, user, run, batch[1..]);
    }
  }

  /** Processing the same batch again, in any later run, adds nothing. */
  lemma SaveAgainAddsNothing(rows: seq<Row>, user: string, run: nat, again: nat, batch: seq<Extracted>)
    requires Unique(rows)
    ensures Save(Save(rows, user, run, batch), user, again, batch) == Save(rows, user, run, batch)
  {
    SaveMeaning(rows, user, run, batch);
    SaveNothingNew(Save(rows, user, run, batch), user, again, batch);
  }

  /** Among events with one key the first in the batch is the one stored. */
  lemma {:induction false} FirstOccurrenceWins(rows: seq<Row>, user: string, run: nat, batch: seq<Extracted>, i: nat)
    requires i < |batch| && !HasKey(rows, user, KeyOf(batch[i]))
    requires forall j :: 0 <= j < i ==> KeyOf(batch[j]) != KeyOf(batch[i])
    ensures Row(user, run, batch[i]) in Save(rows, user, run, batch)
    decreases |batch|
  {
    if i == 0 {
      var next := rows + [Row(user, run, batch[0])];
      SaveKeepsRows(next, user, run, batch[1..]);
      assert next[|rows|] == Row(user, run, batch[0]);
    } else {
      var next := if HasKey(rows, user, KeyOf(batch[0])) then rows else rows + [Row(user, run, batch[0])];
      assert batch[1..][i - 1] == batch[i];
      FirstOccurrenceWins(next, user, run, batch[1..], i - 1);
    }
  }

  lemma {:induction false} SaveKeepsRows(rows: seq<Row>, user: string, run: nat, batch: seq<Extracted>)
    ensures rows <= Save(rows, user, run, batch)
    decreases |batch|
  {
    if batch != [] {
      SaveKeepsRows(if HasKey(rows, user, KeyOf(batch[0])) then rows else rows + [Row(user, run, batch[0])],
                    user, run, batch[1..]);
    }
  }

  lemma StoredKeysConcat(a: seq<Row>, b: seq<Row>, user: string)
    ensures StoredKeys(a + b, user) == StoredKeys(a, user) + StoredKeys(b, user)
  {
    StoredKeysGrow(a, a + b, user);
    forall k | k in StoredKeys(b, user) ensures k in StoredKeys(a + b, user) {
      var i :| 0 <= i < |b| && b[i].user == user && KeyOf(b[i].event) == k;
      assert (a + b)[|a| + i] == b[i];
    }
    forall k | k in StoredKeys(a + b, user) ensures k in StoredKeys(a, user) + StoredKeys(b, user) {
      var i :| 0 <= i < |a + b| && (a + b)[i].user == user && KeyOf((a + b)[i].event) == k;
      if i < |a| { assert a[i] == (a + b)[i]; } else { assert b[i - |a|] == (a + b)[i]; }
    }
  }

  /** A row whose key is not stored may be added. */
  lemma UniqueExtends(rows: seq<Row>, row: Row)
    requires Unique(rows) && !HasKey(rows, row.user, KeyOf(row.event))
    ensures Unique(rows + [row])
  {
  }

  /** Saving one event more. */
  lemma SaveOneMore(rows: seq<Row>, user: string, run: nat, batch: seq<Extracted>, i: nat)
    requires i < |batch|
    ensures var before := Save(rows, user, run, batch[..i]);
            Save(rows, user, run, batch[..i + 1]) ==
              if HasKey(before, user, KeyOf(batch[i])) then before else before + [Row(user, run, batch[i])]
  {
    SaveTwoBatches(rows, user, run, batch[..i], [batch[i]]);
    assert batch[..i] + [batch[i]] == batch[..i + 1];
    var before := Save(rows, user, run, batch[..i]);
    assert [batch[i]][1..] == [];
    assert Save(before + [Row(user, run, batch[i])], user, run, []) == before + [Row(user, run, batch[i])];
  }

  lemma KeysOneMore(batch: seq<Extracted>, i: nat)
    requires i < |batch|
    ensures Keys(batch[..i + 1]) == Keys(batch[..i]) + {KeyOf(batch[i])}
    ensures KeyOf(batch[i]) !in Keys(batch[..i]) ==> forall j :: 0 <= j < i ==> KeyOf(batch[j]) != KeyOf(batch[i])
  {
    var more, less := batch[..i + 1], batch[..i];
    forall k | k in Keys(less) ensures k in Keys(more) {
      var j :| 0 <= j < |less| && KeyOf(less[j]) == k;
      assert more[j] == less[j];
    }
    assert more[i] == batch[i];
    forall k | k in Keys(more) ensures k in Keys(less) + {KeyOf(batch[i])} {
      var j :| 0 <= j < |more| && KeyOf(more[j]) == k;
      if j < i { assert less[j] == more[j]; }
    }
    forall j | 0 <= j < i ensures KeyOf(batch[j]) in Keys(less) {
      assert less[j] == batch[j];
    }
  }

  lemma HasKeyIsStored(rows: seq<Row>, user: string, key: Key)
    ensures HasKey(rows, user, key) <==> key in StoredKeys(rows, user)
  {
  }

  // ---------- In terms of the columns ----------

  /** The first `i` events contain one with the description and the resolved date of event `i`. */
  ghost predicate Repeats(batch: seq<Extracted>, i: nat)
    requires i < |batch|
  {
    exists j :: 0 <= j < i && batch[j].description == batch[i].description
                && batch[j].resolvedDate == batch[i].resolvedDate
  }

  /** Some row of the user has the description and the resolved date of this event. */
  ghost predicate Stored(rows: seq<Row>, user: string, e: Extracted) {
    exists r :: 0 <= r < |rows| && rows[r].user == user && rows[r].event.description == e.description
                && rows[r].event.resolvedDate == e.resolvedDate
  }

  /** No two rows of one user agree in description and resolved date. */
  ghost predicate NoDuplicates(rows: seq<Row>) {
    forall i, j :: 0 <= i < j < |rows| && rows[i].user == rows[j].user ==>
      rows[i].event.description != rows[j].event.description
      || rows[i].event.resolvedDate != rows[j].event.resolvedDate
  }

  lemma HasKeyInColumns(rows: seq<Row>, user: string, e: Extracted)
    ensures HasKey(rows, user, KeyOf(e)) <==> Stored(rows, user, e)
  {
    if Stored(rows, user, e) {
      var r :| 0 <= r < |rows| && rows[r].user == user && rows[r].event.description == e.description
               && rows[r].event.resolvedDate == e.resolvedDate;
      assert KeyOf(rows[r].event) == KeyOf(e);
    }
  }

  lemma UniqueInColumns(rows: seq<Row>)
    ensures Unique(rows) <==> NoDuplicates(rows)
  {
    if NoDuplicates(rows) {
      forall i, j | 0 <= i < j < |rows| && rows[i].user == rows[j].user
        ensures KeyOf(rows[i].event) != KeyOf(rows[j].event)
      {
      }
    }
  }

  /** `saved` is `rows` and then rows for exactly those of the first `n` events, at the places `from`, that
      repeat no earlier one of the batch and were not stored; there are no duplicates, and each of the events
      is stored. */
  ghost predicate Adds(rows: seq<Row>, user: string, run: nat, batch: seq<Extracted>, n: nat, saved: seq<Row>,
                       from: seq<nat>)
    requires n <= |batch|
  {
    && NoDuplicates(saved) && rows <= saved && |saved| == |rows| + |from|
    && (forall k :: 0 <= k < |from| ==> from[k] < n && saved[|rows| + k] == Row(user, run, batch[from[k]]))
    && (forall k, l :: 0 <= k < l < |from| ==> from[k] < from[l])
    && (forall i :: 0 <= i < n ==> (i in from <==> !Repeats(batch, i) && !Stored(rows, user, batch[i])))
    && (forall i :: 0 <= i < n ==> Stored(saved, user, batch[i]))
  }

  /** The rows saved so far hold an event if it was stored before or an earlier one of the batch agrees. */
  lemma StoredSoFar(rows: seq<Row>, user: string, run: nat, batch: seq<Extracted>, n: nat, saved: seq<Row>,
                    from: seq<nat>)
    requires n < |batch| && Adds(rows, user, run, batch, n, saved, from)
    ensures Stored(saved, user, batch[n]) <==> Repeats(batch, n) || Stored(rows, user, batch[n])
  {
    var e := batch[n];
    if Stored(saved, user, e) {
      var r :| 0 <= r < |saved| && saved[r].user == user && saved[r].event.description == e.description
               && saved[r].event.resolvedDate == e.resolvedDate;
      if r < |rows| { assert rows[r] == saved[r]; } else { assert from[r - |rows|] < n; }
    }
    if Repeats(batch, n) {
      var j :| 0 <= j < n && batch[j].description == e.description && batch[j].resolvedDate == e.resolvedDate;
      assert Stored(saved, user, batch[j]);
    }
    if Stored(rows, user, e) {
      var r :| 0 <= r < |rows| && rows[r].user == user && rows[r].event.description == e.description
               && rows[r].event.resolvedDate == e.resolvedDate;
      assert saved[r] == rows[r];
    }
  }

  lemma StoredStays(rows: seq<Row>, row: Row, user: string, e: Extracted)
    requires Stored(rows, user, e)
    ensures Stored(rows + [row], user, e)
  {
    var r :| 0 <= r < |rows| && rows[r].user == user && rows[r].event.description == e.description
             && rows[r].event.resolvedDate == e.resolvedDate;
    assert (rows + [row])[r] == rows[r];
  }

  /** A new event is added at the end. */
  lemma AddsOne(rows: seq<Row>, user: string, run: nat, batch: seq<Extracted>, n: nat, saved: seq<Row>, from: seq<nat>)
    requires n < |batch| && Adds(rows, user, run, batch, n, saved, from) && !Stored(saved, user, batch[n])
    ensures Adds(rows, user, run, batch, n + 1, saved + [Row(user, run, batch[n])], from + [n])
  {
    var more := saved + [Row(user, run, batch[n])];
    StoredSoFar(rows, user, run, batch, n, saved, from);
    assert more[|saved|] == Row(user, run, batch[n]);
    forall i | 0 <= i < n ensures Stored(more, user, batch[i]) {
      StoredStays(saved, Row(user, run, batch[n]), user, batch[i]);
    }
  }

  /** An event that is stored by then is left out. */
  lemma AddsNothing(rows: seq<Row>, user: string, run: nat, batch: seq<Extracted>, n: nat, saved: seq<Row>,
                    from: seq<nat>)
    requires n < |batch| && Adds(rows, user, run, batch, n, saved, from) && Stored(saved, user, batch[n])
    ensures Adds(rows, user, run, batch, n + 1, saved, from)
  {
    StoredSoFar(rows, user, run, batch, n, saved, from);
    hide NoDuplicates, Repeats, Stored;
  }

  /** Saving adds rows for exactly the events that repeat no earlier one of the batch and are not stored
      yet, in their order, and leaves no duplicates. */
  lemma {:induction false} SaveInColumns(rows: seq<Row>, user: string, run: nat, batch: seq<Extracted>, n: nat)
    returns (from: seq<nat>)
    requires NoDuplicates(rows) && n <= |batch|
    ensures Adds(rows, user, run, batch, n, Save(rows, user, run, batch[..n]), from)
  {
    hide Adds, HasKey, Stored;
    if n == 0 {
      from := [];
      assert batch[..0] == [];
      AddsNoneYet(rows, user, run, batch);
    } else {
      var before := Save(rows, user, run, batch[..n - 1]);
      from := SaveInColumns(rows, user, run, batch, n - 1);
      SaveOneMore(rows, user, run, batch, n - 1);
      HasKeyInColumns(before, user, batch[n - 1]);
      if Stored(before, user, batch[n - 1]) {
        AddsNothing(rows, user, run, batch, n - 1, before, from);
      } else {
        AddsOne(rows, user, run, batch, n - 1, before, from);
        from := from + [n - 1];
      }
    }
  }

  lemma AddsNoneYet(rows: seq<Row>, user: string, run: nat, batch: seq<Extracted>)
    requires NoDuplicates(rows)
    ensures Adds(rows, user, run, batch, 0, rows, [])
  {
  }

  /** What a run leaves of a batch in a table into which others write too: no duplicates, every event
      stored, and rows of this run for exactly those events that repeat no earlier one and that no row of
      another run holds. */
  ghost predicate SavedAmongOthers(rows: seq<Row>, user: string, run: nat, batch: seq<Extracted>) {
    && NoDuplicates(rows)
    && (forall i :: 0 <= i < |batch| ==> Stored(rows, user, batch[i]))
    && (forall r :: 0 <= r < |rows| && rows[r].run == run ==>
          rows[r].user == user
          && exists i :: 0 <= i < |batch| && rows[r].event == batch[i] && !Repeats(batch, i))
    && (forall i :: 0 <= i < |batch| && !Repeats(batch, i) ==>
          (Row(user, run, batch[i]) in rows <==>
           !exists r :: 0 <= r < |rows| && rows[r].run != run && rows[r].user == user
                        && rows[r].event.description == batch[i].description
                        && rows[r].event.resolvedDate == batch[i].resolvedDate))
  }

  /** An event that repeats no earlier one is held by one row, of this run or of another. */
  lemma HeldOnce(rows: seq<Row>, user: string, run: nat, batch: seq<Extracted>, i: nat)
    requires NoDuplicates(rows) && i < |batch| && !Repeats(batch, i) && Stored(rows, user, batch[i])
    requires forall r :: 0 <= r < |rows| && rows[r].run == run ==>
               rows[r].user == user
               && exists i :: 0 <= i < |batch| && rows[r].event == batch[i] && !Repeats(batch, i)
    ensures Row(user, run, batch[i]) in rows <==>
            !exists r :: 0 <= r < |rows| && rows[r].run != run && rows[r].user == user
                         && rows[r].event.description == batch[i].description
                         && rows[r].event.resolvedDate == batch[i].resolvedDate
  {
    var r :| 0 <= r < |rows| && rows[r].user == user && rows[r].event.description == batch[i].description
             && rows[r].event.resolvedDate == batch[i].resolvedDate;
    if rows[r].run == run {
      var k :| 0 <= k < |batch| && rows[r].event == batch[k] && !Repeats(batch, k);
      assert k == i;
      assert rows[r] == Row(user, run, batch[i]);
    }
  }

  lemma SavedInColumns(rows: seq<Row>, user: string, run: nat, batch: seq<Extracted>)
    requires Unique(rows) && Keys(batch) <= StoredKeys(rows, user)
    requires forall r :: 0 <= r < |rows| && rows[r].run == run ==>
               rows[r].user == user
               && exists i :: 0 <= i < |batch| && rows[r].event == batch[i]
                              && forall j :: 0 <= j < i ==> KeyOf(batch[j]) != KeyOf(batch[i])
    ensures SavedAmongOthers(rows, user, run, batch)
  {
    forall i | 0 <= i < |batch| ensures Stored(rows, user, batch[i]) {
      assert KeyOf(batch[i]) in Keys(batch);
      HasKeyIsStored(rows, user, KeyOf(batch[i]));
      HasKeyInColumns(rows, user, batch[i]);
    }
    UniqueInColumns(rows);
    forall i | 0 <= i < |batch| && forall j :: 0 <= j < i ==> KeyOf(batch[j]) != KeyOf(batch[i])
      ensures !Repeats(batch, i)
    {
    }
    forall i | 0 <= i < |batch| && !Repeats(batch, i)
      ensures Row(user, run, batch[i]) in rows <==>
              !exists r :: 0 <= r < |rows| && rows[r].run != run && rows[r].user == user
                           && rows[r].event.description == batch[i].description
                           && rows[r].event.resolvedDate == batch[i].resolvedDate
    {
      HeldOnce(rows, user, run, batch, i);
    }
  }
}
