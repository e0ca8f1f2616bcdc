/** What saving a batch of events comes to while other sessions write: each insert happens one suspension
    after the duplicate check of its event, and another session may have its turn in between. */
module ConcurrentSave {
  import opened Wrappers
  import opened Dispatch
  import opened Events

  /** What another session tries to commit at a suspension: an event row, or the mark of a delivery of
      this run whose storage setup failed, having loaded the run's status. */
  datatype Other = CommitsEvent(row: Row) | FailsSetup(loaded: RunStatus)

  /** The event rows after another session's turn: its row is there unless its key is taken. */
  function Joined(events: seq<Row>, added: seq<Row>, other: Other, run: nat): seq<Row> {
    if other.CommitsEvent? && other.row.run != run && !HasKey(events + added, other.row.user, KeyOf(other.row.event))
    then events + [other.row] else events
  }

  /** No other session commits a key of the user's batch. */
  predicate Calm(others: seq<Other>, user: string, batch: seq<Extracted>) {
    forall o :: o in others && o.CommitsEvent? && o.row.user == user ==> KeyOf(o.row.event) !in Keys(batch)
  }

  /** The row that is about to be inserted has a key that is there. */
  predicate Clashes(user: string, events: seq<Row>, rows: seq<Row>, row: Option<Row>) {
    row.Some? && HasKey(events + rows, user, KeyOf(row.value.event))
  }

  function Inserted(row: Option<Row>): seq<Row> {
    if row.Some? then [row.value] else []
  }

  /** In the course of a save: the committed rows, those of this session, the one that is about to be
      inserted, the rows that its duplicate check saw, and how many turns the others have had. */
  datatype Course = Course(events: seq<Row>, rows: seq<Row>, pending: Option<Row>, checked: seq<Row>, turn: nat)

  /** How a save ends that is not cut off: an insert meets a key that its check had not seen, or all rows are
      inserted. */
  datatype End = Clash(row: Row, checked: seq<Row>, stored: seq<Row>) | Through(events: seq<Row>, rows: seq<Row>)

  function AfterTurn(c: Course, others: seq<Other>, run: nat): seq<Row> {
    if c.turn < |others| then Joined(c.events, c.rows, others[c.turn], run) else c.events
  }

  /** What comes of the events from the `i`-th on, of which the keys `seen` occurred before. */
  function Saves(user: string, run: nat, others: seq<Other>, batch: seq<Extracted>, i: nat, seen: set<Key>,
                 c: Course): End
    requires i <= |batch|
    decreases |batch| - i
  {
    if i < |batch| && KeyOf(batch[i]) in seen then Saves(user, run, others, batch, i + 1, seen, c)
    else
      var now := AfterTurn(c, others, run);
      var mine := c.rows + Inserted(c.pending);
      if Clashes(user, now, c.rows, c.pending) then Clash(c.pending.value, c.checked, now + c.rows)
      else if i == |batch| then Through(now, mine)
      else
        var next := if HasKey(now + mine, user, KeyOf(batch[i])) then None else Some(Row(user, run, batch[i]));
        var turn := if c.turn < |others| then c.turn + 1 else c.turn;
        Saves(user, run, others, batch, i + 1, seen + {KeyOf(batch[i])}, Course(now, mine, next, now + mine, turn))
  }

  /** The save of a batch from the start. */
  function SaveAmong(user: string, run: nat, others: seq<Other>, batch: seq<Extracted>, events: seq<Row>,
                     turn: nat): End
  {
    Saves(user, run, others, batch, 0, {}, Course(events, [], None, events, turn))
  }

  /** A clash means that the key was not there at the check, and was there at the insert. */
  lemma {:induction false} ClashWasOvertaken(user: string, run: nat, others: seq<Other>, batch: seq<Extracted>, i: nat,
                                             seen: set<Key>, c: Course)
    requires i <= |batch|
    requires c.pending.Some? ==> c.pending.value.user == user && !HasKey(c.checked, user, KeyOf(c.pending.value.event))
    ensures var end := Saves(user, run, others, batch, i, seen, c);
            end.Clash? ==>
              && end.row.user == user
              && !HasKey(end.checked, user, KeyOf(end.row.event)) && HasKey(end.stored, user, KeyOf(end.row.event))
    decreases |batch| - i
  {
    if i < |batch| && KeyOf(batch[i]) in seen {
      ClashWasOvertaken(user, run, others, batch, i + 1, seen, c);
    } else if i < |batch| {
      var now, mine := AfterTurn(c, others, run), c.rows + Inserted(c.pending);
      var next := if HasKey(now + mine, user, KeyOf(batch[i])) then None else Some(Row(user, run, batch[i]));
      var turn := if c.turn < |others| then c.turn + 1 else c.turn;
      ClashWasOvertaken(user, run, others, batch, i + 1, seen + {KeyOf(batch[i])},
                        Course(now, mine, next, now + mine, turn));
    }
  }
}
