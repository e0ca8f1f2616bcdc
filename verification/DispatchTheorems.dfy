/** The dispatch protocol's guarantees, over every reachable state. */
module DispatchTheorems {
  import opened Payloads
  import opened Dispatch
  import opened DispatchInvariants
  import opened DispatchClaims

  // ---------- Single processing ----------

  /** No run ever returns to PENDING, whatever happens next. */
  lemma NeverPendingAgain(s: State, more: seq<Action>, r: nat)
    requires Reachable(s) && Possible(s, more)
    requires r < |s.runs| && s.runs[r].status != Pending
    ensures r < |After(s, more).runs| && After(s, more).runs[r].status != Pending
  {
    ReachableInv(s);
    BehaviourKeepsInv(s, more);
  }

  /** At most one delivery ever enters the pipeline for a run: every delivery in it holds a claim,
      and two claims are never for the same run. A run is PENDING exactly until it is claimed or its
      storage setup fails. */
  lemma AtMostOneExecution(s: State)
    requires Reachable(s)
    ensures forall d :: 0 <= d < |s.deliveries| && InPipeline(s.deliveries[d].pc) ==> d in s.claims
    ensures forall k :: 0 <= k < |s.claims| ==> s.claims[k] < |s.deliveries|
    ensures forall k, l :: 0 <= k < l < |s.claims| ==>
              s.deliveries[s.claims[k]].Run() != s.deliveries[s.claims[l]].Run()
    ensures forall r {:trigger s.runs[r]} :: 0 <= r < |s.runs| ==>
              (s.runs[r].status == Pending <==> !Claimed(s, r) && s.runs[r].setupFailures == 0)
  {
    ReachableInv(s);
    forall d | 0 <= d < |s.deliveries| && InPipeline(s.deliveries[d].pc) ensures d in s.claims {
      assert DeliveryOk(s, d);
    }
    forall k | 0 <= k < |s.claims| ensures s.claims[k] < |s.deliveries| {
      assert ClaimOk(s, k);
    }
  }

  // ---------- Batch order ----------

  /** A task for item `i` of a batch exists only when every item before it has left PENDING. */
  lemma TaskImpliesEarlierStarted(s: State, t: nat, i: nat)
    requires Reachable(s) && t < |s.tasks| && i < s.tasks[t].index
    ensures s.tasks[t].batch < |s.batches|
    ensures NonPending(s, s.batches[s.tasks[t].batch].first + i)
  {
    ReachableInv(s);
    assert TaskOk(s, t);
  }

  /** Pipeline executions of a batch start in batch order, under any interleaving. */
  lemma ClaimsFollowBatchOrder(s: State, k: nat, l: nat)
    requires Reachable(s) && k < l < |s.claims|
    ensures s.claims[k] < |s.deliveries| && s.deliveries[s.claims[k]].task < |s.tasks|
    ensures s.claims[l] < |s.deliveries| && s.deliveries[s.claims[l]].task < |s.tasks|
    ensures TaskOf(s, s.claims[k]).batch == TaskOf(s, s.claims[l]).batch ==>
              TaskOf(s, s.claims[k]).index < TaskOf(s, s.claims[l]).index
  {
    ReachableInv(s);
    assert ClaimOk(s, k) && ClaimOk(s, l);
    assert DeliveryOk(s, s.claims[k]) && DeliveryOk(s, s.claims[l]);
    DeliveryItem(s, s.claims[k]);
    DeliveryItem(s, s.claims[l]);
  }

  // ---------- Coverage ----------

  /** From a task for item `i`, following acknowledged tasks forward reaches one that is not
      acknowledged, at or before any item `j` that is still PENDING. */
  lemma {:induction false} OutstandingFrom(s: State, b: nat, i: nat, j: nat) returns (t: nat)
    requires Inv(s) && b < |s.batches|
    requires i <= j < |s.batches[b].items| && HasTask(s, b, i)
    requires !NonPending(s, s.batches[b].first + j)
    ensures t < |s.tasks| && s.tasks[t].batch == b && i <= s.tasks[t].index <= j && s.tasks[t].state != Acked
    decreases j - i
  {
    t :| 0 <= t < |s.tasks| && s.tasks[t].batch == b && s.tasks[t].index == i;
    assert TaskOk(s, t) && BatchOk(s, b);
    if s.tasks[t].state == Acked {
      assert Parse(s.tasks[t].body).item == s.batches[b].items[i];
      t := OutstandingFrom(s, b, i + 1, j);
    }
  }

  /** Coverage: while a run of an accepted batch is PENDING, some task that is not acknowledged
      stands at its item or before it and carries it; it is still in the queue unless the queue has
      dropped a task of the batch. */
  lemma PendingRunIsCovered(s: State, b: nat, j: nat) returns (t: nat)
    requires Reachable(s) && b < |s.batches| && s.batches[b].endpoint == Accepted
    requires j < |s.batches[b].items| && s.batches[b].items[j].run < |s.runs|
    requires s.runs[s.batches[b].items[j].run].status == Pending
    ensures t < |s.tasks| && s.tasks[t].batch == b && s.tasks[t].index <= j && s.tasks[t].state != Acked
    ensures var payload := Parse(s.tasks[t].body);
            payload.item == s.batches[b].items[j] || s.batches[b].items[j] in payload.rest
    ensures (forall u :: 0 <= u < |s.tasks| && s.tasks[u].batch == b ==> s.tasks[u].state != Dropped) ==>
              s.tasks[t].state == Queued
  {
    ReachableInv(s);
    assert BatchOk(s, b) && EndpointOk(s, b);
    t := OutstandingFrom(s, b, 0, j);
    assert TaskOk(s, t);
    var rest, i := Parse(s.tasks[t].body).rest, s.tasks[t].index;
    if i < j { assert rest[j - i - 1] == s.batches[b].items[j]; }
  }

  /** Once the endpoint has answered and every task of the batch has left the queue by success, or
      the endpoint has returned `dispatch_error`, no run of the batch is PENDING. */
  lemma NothingLeftPending(s: State, b: nat, j: nat)
    requires Reachable(s) && b < |s.batches| && j < |s.batches[b].items|
    requires || s.batches[b].endpoint == Rejected
             || (s.batches[b].endpoint == Accepted &&
                 forall t :: 0 <= t < |s.tasks| && s.tasks[t].batch == b ==> s.tasks[t].state == Acked)
    ensures s.batches[b].items[j].run < |s.runs| && s.runs[s.batches[b].items[j].run].status != Pending
  {
    ReachableInv(s);
    assert BatchOk(s, b) && EndpointOk(s, b);
    var r := s.batches[b].first + j;
    if s.batches[b].endpoint == Accepted && s.runs[r].status == Pending {
      var t := PendingRunIsCovered(s, b, j);
      assert false;
    } else if s.batches[b].endpoint == Rejected {
      assert NonPending(s, r);
    }
  }

  // ---------- The chain of payloads ----------

  /** The items of a batch are those of its files. */
  ghost predicate FilesOk(s: State) {
    forall b {:trigger s.batches[b]} :: 0 <= b < |s.batches| ==>
      s.batches[b].items == BatchItems(s.batches[b].first, s.batches[b].mode, s.batches[b].files)
  }

  lemma {:induction false} BehaviourKeepsFiles(s: State, actions: seq<Action>)
    requires FilesOk(s) && Possible(s, actions)
    ensures FilesOk(After(s, actions))
    decreases |actions|
  {
    if actions != [] {
      ApplyEvolves(s, actions[0]);
      assert FilesOk(Apply(s, actions[0]));
      BehaviourKeepsFiles(Apply(s, actions[0]), actions[1..]);
    }
  }

  /** Every task ever queued carries what the scheduler would send for its item directly: the user and prompt
      of the original request, its file, and exactly the files after it. */
  lemma EveryPayloadIsDirect(s: State, t: nat)
    requires Reachable(s) && t < |s.tasks|
    ensures s.tasks[t].batch < |s.batches|
    ensures var batch := s.batches[s.tasks[t].batch];
            && s.tasks[t].index < |batch.items| == |batch.files|
            && Parse(s.tasks[t].body) == PayloadFor(batch.user, batch.prompt, batch.items, s.tasks[t].index)
            && CarriesFrom(Parse(s.tasks[t].body), batch.user, batch.prompt, batch.first, batch.mode, batch.files,
                           s.tasks[t].index)
  {
    ReachableInv(s);
    assert TaskOk(s, t);
    var actions :| Possible(INITIAL, actions) && After(INITIAL, actions) == s;
    BehaviourKeepsFiles(INITIAL, actions);
    var batch := s.batches[s.tasks[t].batch];
    ItemsCarry(batch.user, batch.prompt, batch.first, batch.mode, batch.files, s.tasks[t].index);
  }

  ghost predicate NoRedelivery(s: State) {
    forall d, e :: 0 <= d < e < |s.deliveries| ==> s.deliveries[d].task != s.deliveries[e].task
  }

  /** Without redelivery two tasks are never for the same item, so a chain of `n` items makes at
      most `n` tasks. */
  lemma {:induction false} OneTaskPerItem(s: State, t: nat, u: nat)
    requires Inv(s) && NoRedelivery(s)
    requires t < |s.tasks| && u < |s.tasks|
    requires s.tasks[t].batch == s.tasks[u].batch && s.tasks[t].index == s.tasks[u].index
    ensures t == u
    decreases s.tasks[t].index
  {
    assert OriginOk(s, t) && OriginOk(s, u);
    if s.tasks[t].origin.FromDelivery? {
      var d, e := s.tasks[t].origin.delivery, s.tasks[u].origin.delivery;
      OneTaskPerItem(s, s.deliveries[d].task, s.deliveries[e].task);
    }
  }

  /** Without redelivery, a batch whose tasks have all been acknowledged made exactly one task per
      item. */
  lemma ExactlyOneTaskPerItem(s: State, b: nat, i: nat) returns (t: nat)
    requires Reachable(s) && NoRedelivery(s) && b < |s.batches| && i < |s.batches[b].items|
    requires s.batches[b].endpoint == Accepted
    requires forall t :: 0 <= t < |s.tasks| && s.tasks[t].batch == b ==> s.tasks[t].state == Acked
    ensures t < |s.tasks| && s.tasks[t].batch == b && s.tasks[t].index == i
    ensures forall u :: 0 <= u < |s.tasks| && s.tasks[u].batch == b && s.tasks[u].index == i ==> u == t
  {
    ReachableInv(s);
    t := AckedChainReaches(s, b, i);
    forall u | 0 <= u < |s.tasks| && s.tasks[u].batch == b && s.tasks[u].index == i ensures u == t {
      OneTaskPerItem(s, t, u);
    }
  }

  lemma {:induction false} AckedChainReaches(s: State, b: nat, i: nat) returns (t: nat)
    requires Inv(s) && b < |s.batches| && i < |s.batches[b].items|
    requires s.batches[b].endpoint == Accepted
    requires forall t :: 0 <= t < |s.tasks| && s.tasks[t].batch == b ==> s.tasks[t].state == Acked
    ensures t < |s.tasks| && s.tasks[t].batch == b && s.tasks[t].index == i
  {
    if i == 0 {
      assert EndpointOk(s, b);
    } else {
      var p := AckedChainReaches(s, b, i - 1);
      assert TaskOk(s, p);
      assert Parse(s.tasks[p].body).rest == s.batches[b].items[i..];
    }
    t :| 0 <= t < |s.tasks| && s.tasks[t].batch == b && s.tasks[t].index == i;
  }

  // ---------- One item at a time ----------

  /** Without redelivery the items of a batch are handled strictly one after another: while some
      delivery is at an item, every delivery of an earlier item has already left the pipeline and
      handed the batch on. */
  lemma {:induction false} SequentialWithoutRedelivery(s: State, d: nat, e: nat)
    requires Reachable(s) && NoRedelivery(s) && d < |s.deliveries| && e < |s.deliveries|
    ensures s.deliveries[d].task < |s.tasks| && s.deliveries[e].task < |s.tasks|
    ensures TaskOf(s, d).batch == TaskOf(s, e).batch && TaskOf(s, d).index < TaskOf(s, e).index ==>
              s.deliveries[d].pc == Ack || s.deliveries[d].pc == Gone
  {
    ReachableInv(s);
    assert DeliveryOk(s, d) && DeliveryOk(s, e);
    if TaskOf(s, d).batch == TaskOf(s, e).batch && TaskOf(s, d).index < TaskOf(s, e).index {
      EarlierHandedOn(s, d, s.deliveries[e].task);
    }
  }

  lemma {:induction false} EarlierHandedOn(s: State, d: nat, t: nat)
    requires Inv(s) && NoRedelivery(s) && d < |s.deliveries| && t < |s.tasks|
    requires s.deliveries[d].task < |s.tasks|
    requires TaskOf(s, d).batch == s.tasks[t].batch && TaskOf(s, d).index < s.tasks[t].index
    ensures s.deliveries[d].pc == Ack || s.deliveries[d].pc == Gone
    decreases s.tasks[t].index
  {
    assert OriginOk(s, t);
    var p := s.tasks[t].origin.delivery;
    if TaskOf(s, p).index == TaskOf(s, d).index {
      OneTaskPerItem(s, s.deliveries[p].task, s.deliveries[d].task);
    } else {
      EarlierHandedOn(s, d, s.deliveries[p].task);
    }
  }

  // ---------- Two items at once ----------

  /** Some delivery other than `c`, of the same item, has enqueued a task. */
  ghost predicate HandedOnByAnother(s: State, c: nat)
    requires c < |s.deliveries| && s.deliveries[c].task < |s.tasks|
  {
    exists t :: 0 <= t < |s.tasks| && s.tasks[t].origin.FromDelivery? &&
      var e := s.tasks[t].origin.delivery;
      && e != c && e < |s.deliveries| && s.deliveries[e].task < |s.tasks|
      && TaskOf(s, e).batch == TaskOf(s, c).batch && TaskOf(s, e).index == TaskOf(s, c).index
  }

  /** While a delivery is in the pipeline, the next item of its batch has a task if and only if another
      delivery of the same item has handed the batch on. */
  lemma NextItemQueuedIff(s: State, c: nat)
    requires Reachable(s) && c < |s.deliveries| && InPipeline(s.deliveries[c].pc)
    ensures s.deliveries[c].task < |s.tasks|
    ensures HasTask(s, TaskOf(s, c).batch, TaskOf(s, c).index + 1) <==> HandedOnByAnother(s, c)
  {
    ReachableInv(s);
    assert DeliveryOk(s, c);
    var b, i := TaskOf(s, c).batch, TaskOf(s, c).index;
    if t :| 0 <= t < |s.tasks| && s.tasks[t].batch == b && s.tasks[t].index == i + 1 {
      assert OriginOk(s, t);
    }
    if HandedOnByAnother(s, c) {
      var t :| 0 <= t < |s.tasks| && s.tasks[t].origin.FromDelivery? &&
        var e := s.tasks[t].origin.delivery;
        && e != c && e < |s.deliveries| && s.deliveries[e].task < |s.tasks|
        && TaskOf(s, e).batch == b && TaskOf(s, e).index == i;
      assert OriginOk(s, t);
    }
  }

  /** A task for an item means that there are tasks for all items before it. */
  lemma {:induction false} EarlierTasks(s: State, t: nat, i: nat)
    requires Inv(s) && t < |s.tasks| && i <= s.tasks[t].index
    ensures HasTask(s, s.tasks[t].batch, i)
    decreases s.tasks[t].index
  {
    if i < s.tasks[t].index {
      assert OriginOk(s, t);
      EarlierTasks(s, s.deliveries[s.tasks[t].origin.delivery].task, i);
    }
  }

  /** So two items of a batch are at work at once only if a second delivery of the earlier one has
      handed the batch on. */
  lemma OverlapNeedsAnotherDelivery(s: State, c: nat, e: nat)
    requires Reachable(s) && c < |s.deliveries| && e < |s.deliveries|
    requires InPipeline(s.deliveries[c].pc) && InPipeline(s.deliveries[e].pc)
    ensures s.deliveries[c].task < |s.tasks| && s.deliveries[e].task < |s.tasks|
    ensures TaskOf(s, c).batch == TaskOf(s, e).batch && TaskOf(s, c).index < TaskOf(s, e).index ==>
              HandedOnByAnother(s, c)
  {
    ReachableInv(s);
    assert DeliveryOk(s, c) && DeliveryOk(s, e);
    NextItemQueuedIff(s, c);
    if TaskOf(s, c).batch == TaskOf(s, e).batch && TaskOf(s, c).index < TaskOf(s, e).index {
      EarlierTasks(s, s.deliveries[e].task, TaskOf(s, c).index + 1);
    }
  }

  // ---------- When a terminal status is final ----------

  /** The write of the action gives a finished run another status: a failed setup that did not load
      FAILED hits a successful run; a claimant that loaded anything but IN_PROGRESS starts; or a
      claimant finishes with the other outcome. */
  predicate Overwrites(s: State, a: Action, r: nat)
    requires Enabled(s, a) && r < |s.runs|
  {
    match WriteTo(s, a, r)
    case Fails(loaded) => loaded != Failed && s.runs[r].status == Success
    case Begins(loaded) => loaded != InProgress
    case Finishes(ok) => (s.runs[r].status == Success) != ok
    case _ => false
  }

  /** An action changes a terminal status if and only if it overwrites it in one of the three ways. */
  lemma TerminalChangesIff(s: State, a: Action, r: nat)
    requires Enabled(s, a) && r < |s.runs| && Terminal(s.runs[r].status)
    ensures r < |Apply(s, a).runs|
    ensures Apply(s, a).runs[r].status != s.runs[r].status <==> Overwrites(s, a, r)
  {
    ApplyWrites(s, a, r);
  }

  /** While storage setup has never failed for a finished run, only a setup failure can overwrite its status:
      its claimant has finished, or loaded what it claimed. */
  lemma OnlySetupFailureOverwrites(s: State, a: Action, r: nat)
    requires Reachable(s) && Enabled(s, a)
    requires r < |s.runs| && Terminal(s.runs[r].status) && s.runs[r].setupFailures == 0
    ensures Overwrites(s, a, r) ==> WriteTo(s, a, r).Fails?
  {
    ReachableInv(s);
    if Actor(a).Some? {
      var d := Actor(a).value;
      assert DeliveryOk(s, d);
      assert s.deliveries[d].Run() == r ==> ClaimantOk(s, d);
    }
  }

  /** So if storage setup never fails for a run, its terminal status is final. */
  lemma {:induction false} TerminalIsFinal(s: State, more: seq<Action>, r: nat)
    requires Reachable(s) && Possible(s, more)
    requires r < |s.runs| && Terminal(s.runs[r].status)
    requires r < |After(s, more).runs| && After(s, more).runs[r].setupFailures == 0
    ensures After(s, more).runs[r].status == s.runs[r].status
    decreases |more|
  {
    if more != [] {
      var s' := Apply(s, more[0]);
      ReachableStep(s, more[0]);
      ApplyEvolves(s, more[0]);
      ReachableInv(s');
      BehaviourKeepsInv(s', more[1..]);
      ApplyWrites(s, more[0], r);
      TerminalChangesIff(s, more[0], r);
      OnlySetupFailureOverwrites(s, more[0], r);
      TerminalIsFinal(s', more[1..], r);
    }
  }

  lemma {:induction false} AfterOneMore(s: State, actions: seq<Action>, a: Action)
    requires Possible(s, actions) && Enabled(After(s, actions), a)
    ensures Possible(s, actions + [a])
    ensures After(s, actions + [a]) == Apply(After(s, actions), a)
    decreases |actions|
  {
    if actions == [] {
      assert [a][1..] == [] && ([] + [a])[0] == a;
      assert Possible(Apply(s, a), []);
    } else {
      AfterOneMore(Apply(s, actions[0]), actions[1..], a);
      assert (actions + [a])[1..] == actions[1..] + [a];
    }
  }

  lemma ReachableStep(s: State, a: Action)
    requires Reachable(s) && Enabled(s, a)
    ensures Reachable(Apply(s, a))
  {
    var actions :| Possible(INITIAL, actions) && After(INITIAL, actions) == s;
    AfterOneMore(INITIAL, actions, a);
  }
}
