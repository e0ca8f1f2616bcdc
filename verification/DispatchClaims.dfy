/** The rest of the dispatch invariant: who claimed what, why a row left PENDING, and which
    delivery enqueued which task. */
module DispatchClaims {
  import opened Wrappers
  import opened Dispatch
  import opened DispatchInvariants

  function TaskOf(s: State, d: nat): (task: Task)
    requires d < |s.deliveries| && s.deliveries[d].task < |s.tasks|
  {
    s.tasks[s.deliveries[d].task]
  }

  // ---------- Claims ----------

  ghost predicate ClaimOk(s: State, k: nat)
    requires k < |s.claims|
  {
    && s.claims[k] < |s.deliveries|
    && s.deliveries[s.claims[k]].task < |s.tasks|
    && NonPending(s, s.deliveries[s.claims[k]].Run())
  }

  /** No run is claimed twice, and within a batch runs are claimed in batch order. */
  ghost predicate ClaimsOk(s: State) {
    && (forall k :: 0 <= k < |s.claims| ==> ClaimOk(s, k))
    && (forall k, l :: 0 <= k < l < |s.claims| && ClaimOk(s, k) && ClaimOk(s, l) ==>
          && s.deliveries[s.claims[k]].Run() != s.deliveries[s.claims[l]].Run()
          && (TaskOf(s, s.claims[k]).batch == TaskOf(s, s.claims[l]).batch ==>
                s.deliveries[s.claims[k]].Run() < s.deliveries[s.claims[l]].Run()))
  }

  lemma OldClaimKept(s: State, s': State, k: nat)
    requires Evolves(s, s') && k < |s.claims| && ClaimOk(s, k)
    ensures ClaimOk(s', k)
    ensures s'.claims[k] == s.claims[k]
    ensures s'.deliveries[s.claims[k]].Run() == s.deliveries[s.claims[k]].Run()
    ensures TaskOf(s', s.claims[k]).batch == TaskOf(s, s.claims[k]).batch
  {
    var d := s.claims[k];
    assert s'.deliveries[d].payload == s.deliveries[d].payload;
    assert s'.tasks[s.deliveries[d].task].batch == s.tasks[s.deliveries[d].task].batch;
  }

  /** A run that can still be claimed is none of those claimed before, and lies after every
      claimed run of its own batch. */
  lemma PendingRunIsLater(s: State, d: nat, k: nat)
    requires ChainInv(s) && ClaimsOk(s)
    requires d < |s.deliveries| && s.deliveries[d].Run() < |s.runs|
    requires s.runs[s.deliveries[d].Run()].status == Pending
    requires k < |s.claims|
    ensures DeliveryOk(s, d) && ClaimOk(s, k)
    ensures s.deliveries[s.claims[k]].Run() != s.deliveries[d].Run()
    ensures TaskOf(s, s.claims[k]).batch == TaskOf(s, d).batch ==>
              s.deliveries[s.claims[k]].Run() < s.deliveries[d].Run()
  {
    assert DeliveryOk(s, d) && ClaimOk(s, k);
    var c := s.claims[k];
    assert DeliveryOk(s, c);
    DeliveryItem(s, d);
    DeliveryItem(s, c);
    assert TaskOk(s, s.deliveries[c].task);
    assert !NonPending(s, s.deliveries[d].Run());
  }

  /** Every claim is still a claim, and a new one is of a delivery at work. */
  lemma KeepsEachClaim(s: State, a: Action)
    requires ChainInv(s) && ClaimsOk(s) && Enabled(s, a) && Evolves(s, Apply(s, a))
    ensures forall k :: 0 <= k < |Apply(s, a).claims| ==> ClaimOk(Apply(s, a), k)
  {
    var s' := Apply(s, a);
    forall k | 0 <= k < |s.claims| ensures ClaimOk(s', k) {
      assert ClaimOk(s, k);
      OldClaimKept(s, s', k);
    }
    if s'.claims != s.claims {
      assert DeliveryOk(s, a.delivery) && ClaimOk(s', |s.claims|);
    }
  }

  /** A new claim's run is none of those claimed before, and later in its batch. */
  lemma NewClaimIsLater(s: State, a: Action, k: nat)
    requires ChainInv(s) && ClaimsOk(s) && Enabled(s, a) && Evolves(s, Apply(s, a))
    requires Apply(s, a).claims != s.claims && k < |s.claims| && ClaimOk(s, k)
    ensures a.ClaimRun? && DeliveryOk(s, a.delivery)
    ensures s.deliveries[s.claims[k]].Run() != s.deliveries[a.delivery].Run()
    ensures TaskOf(s, s.claims[k]).batch == TaskOf(s, a.delivery).batch ==>
              s.deliveries[s.claims[k]].Run() < s.deliveries[a.delivery].Run()
  {
    assert DeliveryOk(s, a.delivery);
    PendingRunIsLater(s, a.delivery, k);
  }

  lemma KeepsClaims(s: State, a: Action)
    requires ChainInv(s) && ClaimsOk(s) && Enabled(s, a)
    ensures ClaimsOk(Apply(s, a))
  {
    ApplyEvolves(s, a);
    KeepsEachClaim(s, a);
    var s' := Apply(s, a);
    forall k, l | 0 <= k < l < |s'.claims| && ClaimOk(s', k) && ClaimOk(s', l)
      ensures s'.deliveries[s'.claims[k]].Run() != s'.deliveries[s'.claims[l]].Run()
      ensures TaskOf(s', s'.claims[k]).batch == TaskOf(s', s'.claims[l]).batch ==>
                s'.deliveries[s'.claims[k]].Run() < s'.deliveries[s'.claims[l]].Run()
    {
      assert ClaimOk(s, k);
      OldClaimKept(s, s', k);
      if l < |s.claims| {
        assert ClaimOk(s, l);
        OldClaimKept(s, s', l);
      } else {
        NewClaimIsLater(s, a, k);
        assert s'.tasks == s.tasks;
      }
    }
  }

  // ---------- Why a row is not PENDING ----------

  ghost predicate Claimed(s: State, r: nat) {
    exists k :: 0 <= k < |s.claims| && s.claims[k] < |s.deliveries| && s.deliveries[s.claims[k]].Run() == r
  }

  /** A row has left PENDING exactly when some delivery claimed it or storage setup failed for it. */
  ghost predicate StatusesOk(s: State) {
    forall r {:trigger s.runs[r]} :: 0 <= r < |s.runs| ==>
      (s.runs[r].status != Pending <==> Claimed(s, r) || s.runs[r].setupFailures > 0)
  }

  lemma ClaimedStays(s: State, s': State, r: nat)
    requires Evolves(s, s') && Claimed(s, r)
    ensures Claimed(s', r)
  {
    var k :| 0 <= k < |s.claims| && s.claims[k] < |s.deliveries| && s.deliveries[s.claims[k]].Run() == r;
    assert s'.claims[k] == s.claims[k];
  }

  lemma ClaimedInRange(s: State, r: nat)
    requires ClaimsOk(s) && Claimed(s, r)
    ensures NonPending(s, r)
  {
    var k :| 0 <= k < |s.claims| && s.claims[k] < |s.deliveries| && s.deliveries[s.claims[k]].Run() == r;
    assert ClaimOk(s, k);
  }

  lemma NewlyClaimed(s: State, a: Action, r: nat)
    requires Enabled(s, a) && Claimed(Apply(s, a), r) && !Claimed(s, r)
    requires forall k :: 0 <= k < |s.claims| ==> s.claims[k] < |s.deliveries|
    ensures a.ClaimRun? && s.deliveries[a.delivery].Run() == r && s.runs[r].status == Pending
  {
    ApplyEvolves(s, a);
    var s' := Apply(s, a);
    var k :| 0 <= k < |s'.claims| && s'.claims[k] < |s'.deliveries| && s'.deliveries[s'.claims[k]].Run() == r;
    assert s.claims <= s'.claims;
  }

  /** Only a claim or a failed setup takes a row out of PENDING. */
  lemma WriteLeavesPending(s: State, a: Action, r: nat)
    requires ChainInv(s) && Enabled(s, a) && r < |s.runs|
    ensures var w, run := WriteTo(s, a, r), Written(s.runs[r], WriteTo(s, a, r));
            && (w.Fails? ==> run.status != Pending && run.setupFailures > 0)
            && (w.Begins? || w.Finishes? ==> s.runs[r].status != Pending && run.status != Pending)
            && (w.Untouched? || w.Claims? || w.Begins? || w.Finishes? ==> run.setupFailures == s.runs[r].setupFailures)
  {
    if Actor(a).Some? { assert DeliveryOk(s, Actor(a).value); }
    if a.MarkFailed? { assert EndpointOk(s, a.batch) && BatchOk(s, a.batch); }
  }

  lemma ClaimMakesClaimed(s: State, a: Action, r: nat)
    requires Enabled(s, a) && r < |s.runs| && WriteTo(s, a, r) == Claims
    ensures s.runs[r].status == Pending ==> Claimed(Apply(s, a), r)
  {
    if s.runs[r].status == Pending { assert Apply(s, a).claims[|s.claims|] == a.delivery; }
  }

  lemma RowStatusKept(s: State, a: Action, r: nat)
    requires ChainInv(s) && ClaimsOk(s) && StatusesOk(s) && Enabled(s, a) && r < |s.runs|
    ensures r < |Apply(s, a).runs|
    ensures var run := Apply(s, a).runs[r];
            run.status != Pending <==> Claimed(Apply(s, a), r) || run.setupFailures > 0
  {
    ApplyEvolves(s, a);
    ApplyWrites(s, a, r);
    WriteLeavesPending(s, a, r);
    if Claimed(s, r) { ClaimedStays(s, Apply(s, a), r); }
    else if Claimed(Apply(s, a), r) {
      forall k | 0 <= k < |s.claims| ensures s.claims[k] < |s.deliveries| { assert ClaimOk(s, k); }
      NewlyClaimed(s, a, r);
    }
    if WriteTo(s, a, r) == Claims { ClaimMakesClaimed(s, a, r); }
  }

  /** A run that an action creates is PENDING, unclaimed, and its setup has not failed. */
  lemma NewRowStatus(s: State, a: Action, r: nat)
    requires ChainInv(s) && ClaimsOk(s) && Enabled(s, a) && |s.runs| <= r < |Apply(s, a).runs|
    ensures Apply(s, a).runs[r] == Run(Pending, 0) && !Claimed(Apply(s, a), r)
  {
    forall k | 0 <= k < |s.claims| ensures s.claims[k] < |s.deliveries| { assert ClaimOk(s, k); }
    if Claimed(Apply(s, a), r) {
      if Claimed(s, r) { ClaimedInRange(s, r); } else { NewlyClaimed(s, a, r); }
    }
  }

  lemma KeepsStatuses(s: State, a: Action)
    requires ChainInv(s) && ClaimsOk(s) && StatusesOk(s) && Enabled(s, a)
    ensures StatusesOk(Apply(s, a))
  {
    var s' := Apply(s, a);
    forall r | 0 <= r < |s'.runs|
      ensures s'.runs[r].status != Pending <==> Claimed(s', r) || s'.runs[r].setupFailures > 0
    {
      if r < |s.runs| { RowStatusKept(s, a, r); } else { NewRowStatus(s, a, r); }
    }
  }

  // ---------- Who enqueued a task ----------

  ghost predicate OriginOk(s: State, t: nat)
    requires t < |s.tasks|
  {
    match s.tasks[t].origin
    case FromEndpoint => s.tasks[t].index == 0
    case FromDelivery(d) =>
      && d < |s.deliveries|
      && (s.deliveries[d].pc == Ack || s.deliveries[d].pc == Gone)
      && s.deliveries[d].task < |s.tasks|
      && TaskOf(s, d).batch == s.tasks[t].batch
      && TaskOf(s, d).index + 1 == s.tasks[t].index
  }

  /** The endpoint of a batch and each delivery enqueue at most one task. */
  ghost predicate OriginsOk(s: State) {
    && (forall t :: 0 <= t < |s.tasks| ==> OriginOk(s, t))
    && (forall t, t' :: 0 <= t < t' < |s.tasks| && s.tasks[t].origin == s.tasks[t'].origin ==>
          s.tasks[t].origin == FromEndpoint && s.tasks[t].batch != s.tasks[t'].batch)
  }

  lemma OldOriginKept(s: State, a: Action, t: nat)
    requires Enabled(s, a) && t < |s.tasks| && OriginOk(s, t)
    ensures OriginOk(Apply(s, a), t)
  {
    ApplyEvolves(s, a);
    var s' := Apply(s, a);
    assert s'.tasks[t].origin == s.tasks[t].origin;
    if s.tasks[t].origin.FromDelivery? {
      var d := s.tasks[t].origin.delivery;
      assert s'.tasks[s.deliveries[d].task].index == TaskOf(s, d).index;
      assert s'.deliveries[d].task == s.deliveries[d].task;
    }
  }

  lemma KeepsOrigins(s: State, a: Action)
    requires ChainInv(s) && OriginsOk(s) && Enabled(s, a)
    ensures OriginsOk(Apply(s, a))
  {
    ApplyEvolves(s, a);
    var s' := Apply(s, a);
    forall t | 0 <= t < |s'.tasks| ensures OriginOk(s', t) {
      if t < |s.tasks| { OldOriginKept(s, a, t); }
      else if a.AdvanceChain? { assert DeliveryOk(s, a.delivery); }
    }
    forall t, t' | 0 <= t < t' < |s'.tasks| && s'.tasks[t].origin == s'.tasks[t'].origin
      ensures s'.tasks[t].origin == FromEndpoint && s'.tasks[t].batch != s'.tasks[t'].batch
    {
      assert s'.tasks[t].origin == s.tasks[t].origin;
      assert OriginOk(s, t) && TaskOk(s, t);
      if t' < |s.tasks| { assert s'.tasks[t'].origin == s.tasks[t'].origin; }
    }
  }

  // ---------- Where the one claimant stands ----------

  /** Unless storage setup failed for the run, the status its claimant reads and overwrites is
      IN_PROGRESS. */
  ghost predicate ClaimantOk(s: State, d: nat)
    requires d < |s.deliveries| && s.deliveries[d].Run() < |s.runs|
  {
    var delivery, run := s.deliveries[d], s.runs[s.deliveries[d].Run()];
    run.setupFailures == 0 && InPipeline(delivery.pc) && delivery.pc != Move ==>
      && run.status == InProgress
      && (delivery.pc.Begin? ==> delivery.pc.loaded == InProgress)
  }

  ghost predicate ClaimantsOk(s: State) {
    forall d :: 0 <= d < |s.deliveries| && s.deliveries[d].Run() < |s.runs| ==> ClaimantOk(s, d)
  }

  /** At most one delivery is ever in the pipeline for a run. */
  lemma OneClaimant(s: State, d: nat, e: nat)
    requires ChainInv(s) && ClaimsOk(s)
    requires d < |s.deliveries| && e < |s.deliveries|
    requires d in s.claims && e in s.claims
    requires s.deliveries[d].Run() == s.deliveries[e].Run()
    ensures d == e
  {
    var k :| 0 <= k < |s.claims| && s.claims[k] == d;
    var l :| 0 <= l < |s.claims| && s.claims[l] == e;
    assert ClaimOk(s, k) && ClaimOk(s, l);
  }

  /** A delivery's own step leaves its place fitting its run's status. */
  lemma ActorPlaced(s: State, a: Action, d: nat)
    requires Enabled(s, a) && Actor(a) == Some(d)
    requires d < |s.deliveries| && s.deliveries[d].Run() < |s.runs| && DeliveryOk(s, d) && ClaimantOk(s, d)
    ensures ClaimantOk(Apply(s, a), d)
  {
  }

  /** No other delivery, and no endpoint, writes to the run of a delivery in the pipeline, except that
      its storage setup may fail: two deliveries are never in the pipeline for one run. */
  lemma BystanderWrite(s: State, a: Action, d: nat)
    requires Enabled(s, a) && Actor(a) != Some(d)
    requires d < |s.deliveries| && s.deliveries[d].Run() < |s.runs| && DeliveryOk(s, d)
    requires Actor(a).Some? ==>
               && Actor(a).value < |s.deliveries| && DeliveryOk(s, Actor(a).value)
               && (s.deliveries[d].Run() == s.deliveries[Actor(a).value].Run() ==>
                     !(d in s.claims && Actor(a).value in s.claims))
    requires InPipeline(s.deliveries[d].pc)
    ensures var w := WriteTo(s, a, s.deliveries[d].Run()); w.Untouched? || w.Fails? || w.Claims?
  {
  }

  lemma BystanderStays(s: State, a: Action, d: nat)
    requires Enabled(s, a) && Actor(a) != Some(d) && d < |s.deliveries|
    ensures Apply(s, a).deliveries[d] == s.deliveries[d]
  {
  }

  lemma BystanderPlaced(s: State, a: Action, d: nat)
    requires Enabled(s, a) && Actor(a) != Some(d)
    requires d < |s.deliveries| && s.deliveries[d].Run() < |s.runs| && DeliveryOk(s, d) && ClaimantOk(s, d)
    requires Actor(a).Some? ==>
               && Actor(a).value < |s.deliveries| && DeliveryOk(s, Actor(a).value)
               && (s.deliveries[d].Run() == s.deliveries[Actor(a).value].Run() ==>
                     !(d in s.claims && Actor(a).value in s.claims))
    ensures d < |Apply(s, a).deliveries| && Apply(s, a).deliveries[d].Run() < |Apply(s, a).runs|
    ensures ClaimantOk(Apply(s, a), d)
  {
    BystanderStays(s, a, d);
    ApplyWrites(s, a, s.deliveries[d].Run());
    if InPipeline(s.deliveries[d].pc) { BystanderWrite(s, a, d); }
  }

  lemma ClaimantKept(s: State, a: Action, d: nat)
    requires ChainInv(s) && ClaimsOk(s) && Enabled(s, a)
    requires d < |s.deliveries| && s.deliveries[d].Run() < |s.runs| && ClaimantOk(s, d)
    ensures d < |Apply(s, a).deliveries| && Apply(s, a).deliveries[d].Run() < |Apply(s, a).runs|
    ensures ClaimantOk(Apply(s, a), d)
  {
    ApplyEvolves(s, a);
    assert DeliveryOk(s, d);
    if Actor(a) == Some(d) {
      ActorPlaced(s, a, d);
    } else {
      if Actor(a).Some? {
        var e := Actor(a).value;
        assert DeliveryOk(s, e);
        if s.deliveries[d].Run() == s.deliveries[e].Run() && d in s.claims && e in s.claims {
          OneClaimant(s, d, e);
        }
      }
      BystanderPlaced(s, a, d);
    }
  }

  lemma KeepsClaimants(s: State, a: Action)
    requires ChainInv(s) && ClaimsOk(s) && ClaimantsOk(s) && Enabled(s, a)
    ensures ClaimantsOk(Apply(s, a))
  {
    ApplyEvolves(s, a);
    var s' := Apply(s, a);
    forall d | 0 <= d < |s'.deliveries| && s'.deliveries[d].Run() < |s'.runs| ensures ClaimantOk(s', d) {
      if d < |s.deliveries| {
        assert DeliveryOk(s, d);
        DeliveryItem(s, d);
        assert ClaimantOk(s, d);
        ClaimantKept(s, a, d);
      }
    }
  }

  // ---------- The whole invariant ----------

  ghost predicate Inv(s: State) {
    ChainInv(s) && ClaimsOk(s) && StatusesOk(s) && OriginsOk(s) && ClaimantsOk(s)
  }

  lemma NoClaimsYet(s: State)
    requires s.claims == [] && s.runs == []
    ensures ClaimsOk(s) && StatusesOk(s)
  {
  }

  lemma NothingQueuedYet(s: State)
    requires s.tasks == [] && s.deliveries == []
    ensures OriginsOk(s) && ClaimantsOk(s)
  {
  }

  lemma InitialInv()
    ensures Inv(INITIAL)
  {
    InitialChainInv();
    NoClaimsYet(INITIAL);
    NothingQueuedYet(INITIAL);
  }

  lemma KeepsInv(s: State, a: Action)
    requires Inv(s) && Enabled(s, a)
    ensures Inv(Apply(s, a))
  {
    KeepsChainInv(s, a);
    KeepsClaims(s, a);
    KeepsStatuses(s, a);
    KeepsOrigins(s, a);
    KeepsClaimants(s, a);
  }

  lemma {:induction false} BehaviourKeepsInv(s: State, actions: seq<Action>)
    requires Inv(s) && Possible(s, actions)
    ensures Inv(After(s, actions)) && Evolves(s, After(s, actions))
    decreases |actions|
  {
    if actions != [] {
      KeepsInv(s, actions[0]);
      ApplyEvolves(s, actions[0]);
      BehaviourKeepsInv(Apply(s, actions[0]), actions[1..]);
      EvolvesTransitively(s, Apply(s, actions[0]), After(s, actions));
    }
  }

  lemma ReachableInv(s: State)
    requires Reachable(s)
    ensures Inv(s)
  {
    var actions :| Possible(INITIAL, actions) && After(INITIAL, actions) == s;
    InitialInv();
    BehaviourKeepsInv(INITIAL, actions);
  }
}
