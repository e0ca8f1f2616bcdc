/** What every action of the dispatch protocol keeps. */
module DispatchInvariants {
  import opened Wrappers
  import opened Payloads
  import opened Dispatch

  // ---------- What never changes ----------

  predicate NonPending(s: State, r: nat) {
    r < |s.runs| && s.runs[r].status != Pending
  }

  ghost predicate RunsEvolve(s: State, s': State) {
    && |s.runs| <= |s'.runs|
    && (forall r {:trigger s'.runs[r]} :: 0 <= r < |s.runs| ==>
          && (s.runs[r].status != Pending ==> s'.runs[r].status != Pending)
          && s.runs[r].setupFailures <= s'.runs[r].setupFailures)
  }

  ghost predicate BatchesEvolve(s: State, s': State) {
    && |s.batches| <= |s'.batches|
    && (forall b {:trigger s'.batches[b]} :: 0 <= b < |s.batches| ==>
          && s'.batches[b] == s.batches[b].(endpoint := s'.batches[b].endpoint)
          && (s.batches[b].endpoint != Committed ==> s'.batches[b].endpoint != Committed))
  }

  ghost predicate TasksEvolve(s: State, s': State) {
    && |s.tasks| <= |s'.tasks|
    && (forall t {:trigger s'.tasks[t]} {:trigger s.tasks[t]} :: 0 <= t < |s.tasks| ==>
          s'.tasks[t] == s.tasks[t].(state := s'.tasks[t].state))
  }

  ghost predicate DeliveriesEvolve(s: State, s': State) {
    && |s.deliveries| <= |s'.deliveries|
    && (forall d {:trigger s'.deliveries[d]} :: 0 <= d < |s.deliveries| ==>
          s'.deliveries[d] == s.deliveries[d].(pc := s'.deliveries[d].pc))
  }

  /** Rows, batches, tasks and deliveries are never removed; no row goes back to PENDING; payloads,
      histories and the claim log are only ever extended. */
  ghost predicate Evolves(s: State, s': State) {
    && RunsEvolve(s, s') && BatchesEvolve(s, s') && TasksEvolve(s, s') && DeliveriesEvolve(s, s')
    && s.claims <= s'.claims
  }

  lemma ApplyEvolvesRows(s: State, a: Action)
    requires Enabled(s, a)
    ensures RunsEvolve(s, Apply(s, a)) && BatchesEvolve(s, Apply(s, a))
  {
  }

  lemma ApplyEvolvesHandlers(s: State, a: Action)
    requires Enabled(s, a)
    ensures TasksEvolve(s, Apply(s, a)) && DeliveriesEvolve(s, Apply(s, a)) && s.claims <= Apply(s, a).claims
  {
  }

  lemma ApplyEvolves(s: State, a: Action)
    requires Enabled(s, a)
    ensures Evolves(s, Apply(s, a))
  {
    ApplyEvolvesRows(s, a);
    ApplyEvolvesHandlers(s, a);
  }

  lemma EvolvesTransitively(s: State, s': State, s'': State)
    requires Evolves(s, s') && Evolves(s', s'')
    ensures Evolves(s, s'')
  {
  }

  /** No action changes a row in any other way than its write to it. */
  lemma ApplyWrites(s: State, a: Action, r: nat)
    requires Enabled(s, a) && r < |s.runs|
    ensures r < |Apply(s, a).runs| && Apply(s, a).runs[r] == Written(s.runs[r], WriteTo(s, a, r))
  {
  }

  // ---------- The invariant ----------

  ghost predicate HasTask(s: State, b: nat, i: nat) {
    exists t :: 0 <= t < |s.tasks| && s.tasks[t].batch == b && s.tasks[t].index == i
  }

  predicate BatchOk(s: State, b: nat)
    requires b < |s.batches|
  {
    var batch := s.batches[b];
    && batch.items != []
    && batch.first + |batch.items| <= |s.runs|
    && forall i :: 0 <= i < |batch.items| ==> batch.items[i].run == batch.first + i
  }

  /** Each batch owns a block of consecutive run ids of its own. */
  ghost predicate BatchesOk(s: State) {
    && (forall b :: 0 <= b < |s.batches| ==> BatchOk(s, b))
    && (forall b, b' :: 0 <= b < b' < |s.batches| ==>
          s.batches[b].first + |s.batches[b].items| <= s.batches[b'].first)
  }

  /** A task carries its item with exactly the items after it, and every item before it has
      already left PENDING. */
  ghost predicate TaskOk(s: State, t: nat)
    requires t < |s.tasks|
  {
    var task := s.tasks[t];
    && task.batch < |s.batches|
    && task.index < |s.batches[task.batch].items|
    && s.batches[task.batch].endpoint != Committed
    && Parse(task.body) == PayloadFor(s.batches[task.batch].user, s.batches[task.batch].prompt,
                                      s.batches[task.batch].items, task.index)
    && (forall r {:trigger NonPending(s, r)} ::
          s.batches[task.batch].first <= r < s.batches[task.batch].first + task.index ==> NonPending(s, r))
  }

  ghost predicate TasksOk(s: State) {
    forall t :: 0 <= t < |s.tasks| ==> TaskOk(s, t)
  }

  predicate InPipeline(pc: Pc) {
    pc == Load || pc.Begin? || pc == Work || pc == Move
  }

  ghost predicate DeliveryOk(s: State, d: nat)
    requires d < |s.deliveries|
  {
    var delivery := s.deliveries[d];
    && delivery.task < |s.tasks|
    && delivery.payload == Parse(s.tasks[delivery.task].body)
    && (delivery.pc == Advance || delivery.pc == Ack || InPipeline(delivery.pc) ==> NonPending(s, delivery.Run()))
    && (delivery.pc == Failing(Failed) ==> NonPending(s, delivery.Run()))
    && (delivery.pc == Ack && delivery.payload.rest != [] ==>
          HasTask(s, s.tasks[delivery.task].batch, s.tasks[delivery.task].index + 1))
    && (InPipeline(delivery.pc) ==> d in s.claims)
  }

  ghost predicate DeliveriesOk(s: State) {
    forall d :: 0 <= d < |s.deliveries| ==> DeliveryOk(s, d)
  }

  /** An acknowledged task has handed its batch on. */
  ghost predicate AckedOk(s: State) {
    forall t {:trigger s.tasks[t]} :: 0 <= t < |s.tasks| && s.tasks[t].state == Acked ==>
      && NonPending(s, Parse(s.tasks[t].body).item.run)
      && (Parse(s.tasks[t].body).rest != [] ==> HasTask(s, s.tasks[t].batch, s.tasks[t].index + 1))
  }

  ghost predicate EndpointOk(s: State, b: nat)
    requires b < |s.batches|
  {
    var batch := s.batches[b];
    match batch.endpoint
    case Accepted => HasTask(s, b, 0)
    case Marking(k, seen) =>
      && k < |batch.items|
      && (seen == Some(Failed) ==> NonPending(s, batch.first + k))
      && forall r {:trigger NonPending(s, r)} :: batch.first <= r < batch.first + k ==> NonPending(s, r)
    case Rejected =>
      forall r {:trigger NonPending(s, r)} :: batch.first <= r < batch.first + |batch.items| ==> NonPending(s, r)
    case _ => true
  }

  ghost predicate EndpointsOk(s: State) {
    forall b :: 0 <= b < |s.batches| ==> EndpointOk(s, b)
  }

  /** The invariant behind coverage and batch order. */
  ghost predicate ChainInv(s: State) {
    BatchesOk(s) && TasksOk(s) && DeliveriesOk(s) && AckedOk(s) && EndpointsOk(s)
  }

  /** The run of a delivery is the item of its task. */
  lemma DeliveryItem(s: State, d: nat)
    requires BatchesOk(s) && TasksOk(s) && d < |s.deliveries| && DeliveryOk(s, d)
    ensures var task := s.tasks[s.deliveries[d].task];
            && task.batch < |s.batches| && task.index < |s.batches[task.batch].items|
            && var batch := s.batches[task.batch];
            && s.deliveries[d].payload == PayloadFor(batch.user, batch.prompt, batch.items, task.index)
            && s.deliveries[d].Run() == batch.first + task.index < |s.runs|
            && (s.deliveries[d].payload.rest != [] <==> task.index + 1 < |batch.items|)
  {
    var task := s.tasks[s.deliveries[d].task];
    assert TaskOk(s, s.deliveries[d].task);
    assert BatchOk(s, task.batch);
  }

  lemma InitialChainInv()
    ensures ChainInv(INITIAL)
  {
    var s := INITIAL;
    assert s.batches == [] && s.tasks == [] && s.deliveries == [];
    assert BatchesOk(s);
    assert TasksOk(s);
    assert DeliveriesOk(s);
    assert AckedOk(s);
    assert EndpointsOk(s);
  }

  lemma KeepsBatches(s: State, a: Action)
    requires ChainInv(s) && Enabled(s, a)
    ensures BatchesOk(Apply(s, a))
  {
    ApplyEvolves(s, a);
    var s' := Apply(s, a);
    forall b | 0 <= b < |s'.batches| ensures BatchOk(s', b) {
      if b < |s.batches| { assert BatchOk(s, b); }
    }
    forall b, b' | 0 <= b < b' < |s'.batches|
      ensures s'.batches[b].first + |s'.batches[b].items| <= s'.batches[b'].first
    {
      assert BatchOk(s, b);
    }
  }

  /** An existing task stays described by its batch. */
  lemma OldTaskKept(s: State, s': State, t: nat)
    requires Evolves(s, s') && t < |s.tasks| && TaskOk(s, t)
    ensures TaskOk(s', t)
  {
    var batch := s.batches[s.tasks[t].batch];
    forall r | batch.first <= r < batch.first + s.tasks[t].index ensures NonPending(s', r) {
      assert NonPending(s, r);
    }
  }

  lemma FirstTaskOk(s: State, b: nat, outcome: Enqueue)
    requires Enabled(s, EnqueueFirst(b, outcome)) && outcome != Raised
    ensures TaskOk(Apply(s, EnqueueFirst(b, outcome)), |s.tasks|)
  {
    var batch := s.batches[b];
    FirstBodyCarriesBatch(batch.user, batch.prompt, batch.items);
  }

  lemma ChainedTaskOk(s: State, d: nat, outcome: Enqueue)
    requires ChainInv(s) && Enabled(s, AdvanceChain(d, outcome))
    requires outcome != Raised && s.deliveries[d].payload.rest != []
    ensures TaskOk(Apply(s, AdvanceChain(d, outcome)), |s.tasks|)
  {
    var s' := Apply(s, AdvanceChain(d, outcome));
    assert DeliveryOk(s, d);
    DeliveryItem(s, d);
    var from := s.tasks[s.deliveries[d].task];
    assert TaskOk(s, s.deliveries[d].task);
    var batch := s.batches[from.batch];
    NextBodyRefinesDirect(batch.user, batch.prompt, batch.items, from.index);
    forall r | batch.first <= r < batch.first + from.index + 1 ensures NonPending(s', r) {
      assert NonPending(s, r);
    }
  }

  lemma KeepsTasks(s: State, a: Action)
    requires ChainInv(s) && Enabled(s, a)
    ensures TasksOk(Apply(s, a))
  {
    ApplyEvolves(s, a);
    var s' := Apply(s, a);
    if a.EnqueueFirst? && a.outcome != Raised { FirstTaskOk(s, a.batch, a.outcome); }
    if a.AdvanceChain? && a.outcome != Raised && s.deliveries[a.delivery].payload.rest != [] {
      ChainedTaskOk(s, a.delivery, a.outcome);
    }
    forall t | 0 <= t < |s'.tasks| ensures TaskOk(s', t) {
      if t < |s.tasks| { OldTaskKept(s, s', t); }
    }
  }

  lemma TasksStay(s: State, s': State, b: nat, i: nat)
    requires Evolves(s, s') && HasTask(s, b, i)
    ensures HasTask(s', b, i)
  {
    var t :| 0 <= t < |s.tasks| && s.tasks[t].batch == b && s.tasks[t].index == i;
    assert s'.tasks[t].batch == b;
  }

  /** A delivery that does not act in a step stays well placed. */
  lemma IdleDeliveryKept(s: State, s': State, d: nat)
    requires Evolves(s, s') && d < |s.deliveries| && DeliveryOk(s, d)
    requires s'.deliveries[d].pc == s.deliveries[d].pc
    ensures DeliveryOk(s', d)
  {
    var from := s.tasks[s.deliveries[d].task];
    if HasTask(s, from.batch, from.index + 1) { TasksStay(s, s', from.batch, from.index + 1); }
    if d in s.claims { assert d in s'.claims; }
  }

  /** The delivery whose action a step is, if it is one's. */
  function Actor(a: Action): Option<nat> {
    match a
    case CheckTerminal(d) => Some(d)
    case SetUpStorage(d, _) => Some(d)
    case LoadToFail(d) => Some(d)
    case FailWithoutStorage(d) => Some(d)
    case ClaimRun(d) => Some(d)
    case LoadRun(d) => Some(d)
    case BeginPipeline(d) => Some(d)
    case FinishPipeline(d, _) => Some(d)
    case MoveFile(d) => Some(d)
    case AdvanceChain(d, _) => Some(d)
    case Acknowledge(d) => Some(d)
    case Kill(d) => Some(d)
    case _ => None
  }

  /** The delivery that acts is well placed at its next point. */
  lemma ActingDeliveryKept(s: State, a: Action)
    requires ChainInv(s) && Enabled(s, a) && Actor(a).Some?
    ensures DeliveryOk(Apply(s, a), Actor(a).value)
  {
    var d, s' := Actor(a).value, Apply(s, a);
    assert DeliveryOk(s, d);
    if a.AdvanceChain? && s'.deliveries[d].pc == Ack && s.deliveries[d].payload.rest != [] {
      var from := s.tasks[s.deliveries[d].task];
      assert s'.tasks[|s.tasks|].batch == from.batch && s'.tasks[|s.tasks|].index == from.index + 1;
    }
    if d in s.claims { assert d in s'.claims; }
  }

  lemma KeepsDeliveries(s: State, a: Action)
    requires ChainInv(s) && Enabled(s, a)
    ensures DeliveriesOk(Apply(s, a))
  {
    ApplyEvolves(s, a);
    var s' := Apply(s, a);
    if Actor(a).Some? { ActingDeliveryKept(s, a); }
    forall d | 0 <= d < |s'.deliveries| ensures DeliveryOk(s', d) {
      if d < |s.deliveries| && Actor(a) != Some(d) { IdleDeliveryKept(s, s', d); }
    }
  }

  lemma KeepsAcked(s: State, a: Action)
    requires ChainInv(s) && Enabled(s, a)
    ensures AckedOk(Apply(s, a))
  {
    ApplyEvolves(s, a);
    var s' := Apply(s, a);
    forall t | 0 <= t < |s'.tasks| && s'.tasks[t].state == Acked
      ensures NonPending(s', Parse(s'.tasks[t].body).item.run)
      ensures Parse(s'.tasks[t].body).rest != [] ==> HasTask(s', s'.tasks[t].batch, s'.tasks[t].index + 1)
    {
      if a.Acknowledge? && t == s.deliveries[a.delivery].task {
        assert DeliveryOk(s, a.delivery);
      } else {
        assert s.tasks[t].state == Acked;
      }
      if Parse(s.tasks[t].body).rest != [] {
        TasksStay(s, s', s.tasks[t].batch, s.tasks[t].index + 1);
      }
    }
  }

  /** An endpoint that does not act still keeps its promise. */
  lemma IdleEndpointKept(s: State, s': State, b: nat)
    requires Evolves(s, s') && b < |s.batches| && BatchOk(s, b) && EndpointOk(s, b)
    requires s'.batches[b].endpoint == s.batches[b].endpoint
    ensures EndpointOk(s', b)
  {
    if HasTask(s, b, 0) { TasksStay(s, s', b, 0); }
    forall r | s.batches[b].first <= r < s.batches[b].first + |s.batches[b].items| && NonPending(s, r)
      ensures NonPending(s', r)
    {
    }
  }

  /** The action is one of the endpoint that created batch `b`. */
  predicate ActsFor(a: Action, b: nat) {
    (a.EnqueueFirst? || a.LoadToMark? || a.MarkFailed? || a.EndpointDies?) && a.batch == b
  }

  lemma EndpointStep(s: State, a: Action, b: nat)
    requires Enabled(s, a) && Evolves(s, Apply(s, a)) && b < |s.batches| && BatchOk(s, b) && EndpointOk(s, b)
    requires ActsFor(a, b)
    ensures EndpointOk(Apply(s, a), b)
  {
    var s' := Apply(s, a);
    if a == EnqueueFirst(b, Stored) { assert s'.tasks[|s.tasks|].batch == b; }
    if s.batches[b].endpoint.Marking? {
      var first, k := s.batches[b].first, s.batches[b].endpoint.marked;
      forall r | first <= r < first + k ensures NonPending(s', r) { assert NonPending(s, r); }
      if a == MarkFailed(b) {
        assert s.batches[b].endpoint.seen == Some(Failed) ==> NonPending(s, first + k);
        assert NonPending(s', first + k);
      }
    }
  }

  lemma EndpointIdle(s: State, a: Action, b: nat)
    requires Enabled(s, a) && b < |s.batches|
    requires !ActsFor(a, b)
    ensures b < |Apply(s, a).batches| && Apply(s, a).batches[b].endpoint == s.batches[b].endpoint
  {
  }

  lemma EndpointKept(s: State, a: Action, b: nat)
    requires ChainInv(s) && Enabled(s, a) && b < |s.batches|
    requires Evolves(s, Apply(s, a))
    ensures EndpointOk(Apply(s, a), b)
  {
    assert EndpointOk(s, b) && BatchOk(s, b);
    if ActsFor(a, b) {
      EndpointStep(s, a, b);
    } else {
      EndpointIdle(s, a, b);
      IdleEndpointKept(s, Apply(s, a), b);
    }
  }

  lemma KeepsEndpoints(s: State, a: Action)
    requires ChainInv(s) && Enabled(s, a)
    ensures EndpointsOk(Apply(s, a))
  {
    ApplyEvolves(s, a);
    var s' := Apply(s, a);
    forall b | 0 <= b < |s'.batches| ensures EndpointOk(s', b) {
      if b < |s.batches| { EndpointKept(s, a, b); }
    }
  }

  lemma KeepsChainInv(s: State, a: Action)
    requires ChainInv(s) && Enabled(s, a)
    ensures ChainInv(Apply(s, a))
  {
    KeepsBatches(s, a);
    KeepsTasks(s, a);
    KeepsDeliveries(s, a);
    KeepsAcked(s, a);
    KeepsEndpoints(s, a);
  }
}
