/** Which of the stored events the event list selects. */
module EventList {
  import opened Wrappers
  import opened Search

  /** The columns that the list filters on; `agreedBy` is the text of the JSON array. */
  datatype Event = Event(
    user: string,
    kind: string,
    description: string,
    rawDateText: string,
    agreedBy: string,
    earliest: Option<int>,
    reviewed: bool)

  datatype Filters = Filters(
    kind: Option<string>,
    dateFrom: Option<int>,
    dateTo: Option<int>,
    search: Option<string>,
    showReviewed: bool)

  datatype Condition =
    | OwnedBy(user: string)
    | NotReviewed
    | OfKind(kind: string)
    | NotBefore(day: int)
    | NotAfter(day: int)
    | AnyLike(pattern: string)

  /** The columns that the search looks at. */
  function Texts(e: Event): seq<string> {
    [e.kind, e.description, e.rawDateText, e.agreedBy]
  }

  /** Whether a row satisfies a condition; a comparison with a missing date does not hold. */
  predicate Holds(c: Condition, e: Event, fold: char -> char) {
    match c
    case OwnedBy(user) => e.user == user
    case NotReviewed => !e.reviewed
    case OfKind(kind) => e.kind == kind
    case NotBefore(day) => e.earliest.Some? && e.earliest.value >= day
    case NotAfter(day) => e.earliest.Some? && e.earliest.value <= day
    case AnyLike(pattern) =>
      exists i {:trigger Texts(e)[i]} :: 0 <= i < 4 && ILike(Texts(e)[i], pattern, fold) == Some(true)
  }

  predicate AllHold(conditions: seq<Condition>, e: Event, fold: char -> char) {
    forall i :: 0 <= i < |conditions| ==> Holds(conditions[i], e, fold)
  }

  /** The search text occurs, up to case, in the event's type, description, date text or participants. */
  predicate Mentions(e: Event, search: string, fold: char -> char) {
    var word := Folded(search, fold);
    || Occurs(word, Folded(e.kind, fold))
    || Occurs(word, Folded(e.description, fold))
    || Occurs(word, Folded(e.rawDateText, fold))
    || Occurs(word, Folded(e.agreedBy, fold))
  }

  /** What the list promises about a row: an empty kind or search text is no filter, and a date filter
      leaves out events without a date. */
  predicate Wanted(e: Event, user: string, f: Filters, fold: char -> char) {
    && e.user == user
    && (f.showReviewed || !e.reviewed)
    && (f.kind.Some? && f.kind.value != "" ==> e.kind == f.kind.value)
    && (f.dateFrom.Some? ==> e.earliest.Some? && e.earliest.value >= f.dateFrom.value)
    && (f.dateTo.Some? ==> e.earliest.Some? && e.earliest.value <= f.dateTo.value)
    && (f.search.Some? && f.search.value != "" ==> Mentions(e, f.search.value, fold))
  }

  lemma SearchCondition(e: Event, search: string, fold: char -> char)
    requires FoldsCase(fold)
    ensures Holds(AnyLike(LikePattern(search)), e, fold) <==> Mentions(e, search, fold)
  {
    forall i {:trigger Texts(e)[i]} | 0 <= i < 4
      ensures ILike(Texts(e)[i], LikePattern(search), fold) == Some(true) <==>
              Occurs(Folded(search, fold), Folded(Texts(e)[i], fold))
    {
      SearchIsSubstringSearch(search, Texts(e)[i], fold);
    }
    assert Texts(e)[0] == e.kind && Texts(e)[1] == e.description;
    assert Texts(e)[2] == e.rawDateText && Texts(e)[3] == e.agreedBy;
  }

  lemma OneMoreCondition(conditions: seq<Condition>, c: Condition, e: Event, fold: char -> char)
    ensures AllHold(conditions + [c], e, fold) <==> AllHold(conditions, e, fold) && Holds(c, e, fold)
  {
    var all := conditions + [c];
    assert all[|conditions|] == c;
    forall i | 0 <= i < |conditions| ensures all[i] == conditions[i] {
    }
  }

  /** Appends a condition if its filter is set. */
  method AppendIf(conditions: seq<Condition>, given: bool, c: Condition, ghost fold: char -> char)
    returns (more: seq<Condition>)
    ensures forall e {:trigger AllHold(more, e, fold)} ::
              AllHold(more, e, fold) <==> AllHold(conditions, e, fold) && (given ==> Holds(c, e, fold))
  {
    more := conditions;
    if given {
      more := more + [c];
      forall e ensures AllHold(more, e, fold) <==> AllHold(conditions, e, fold) && Holds(c, e, fold) {
        OneMoreCondition(conditions, c, e, fold);
      }
    }
  }

  /** The conditions that `list_user_events` collects select exactly the wanted rows. */
  method Conditions(user: string, f: Filters, ghost fold: char -> char) returns (conditions: seq<Condition>)
    requires FoldsCase(fold)
    ensures forall e {:trigger AllHold(conditions, e, fold)} ::
              AllHold(conditions, e, fold) <==> Wanted(e, user, f, fold)
  {
    var kind, search := if f.kind.Some? then f.kind.value else "", if f.search.Some? then f.search.value else "";
    conditions := AppendIf([], true, OwnedBy(user), fold);
    conditions := AppendIf(conditions, !f.showReviewed, NotReviewed, fold);
    conditions := AppendIf(conditions, kind != "", OfKind(kind), fold);
    if f.dateFrom.Some? {
      conditions := AppendIf(conditions, true, NotBefore(f.dateFrom.value), fold);
    }
    if f.dateTo.Some? {
      conditions := AppendIf(conditions, true, NotAfter(f.dateTo.value), fold);
    }
    conditions := AppendIf(conditions, search != "", AnyLike(LikePattern(search)), fold);
    forall e ensures Holds(AnyLike(LikePattern(search)), e, fold) <==> Mentions(e, search, fold) {
      SearchCondition(e, search, fold);
    }
  }
}
