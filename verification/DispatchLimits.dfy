/** What the dispatch protocol does not guarantee, each time with a behaviour that shows it. */
module DispatchLimits {
  import opened Payloads
  import opened Dispatch
  import opened DispatchTheorems

  lemma InitialReachable()
    ensures Reachable(INITIAL)
  {
    assert Possible(INITIAL, []) && After(INITIAL, []) == INITIAL;
  }

  /** One accepted batch of `n` files whose first task is queued. */
  function Scheduled(n: nat): State
    requires n > 0
  {
    var files := seq(n, _ => File("id", "name", []));
    var items := BatchItems(0, "configured", files);
    State(seq(n, _ => Run(Pending, 0)), [Batch("u", "p", 0, "configured", files, items, Accepted)],
          [Task(FirstBody("u", "p", items), Queued, 0, 0, FromEndpoint)], [], [])
  }

  lemma ScheduledReachable(n: nat)
    requires n > 0
    ensures Reachable(Scheduled(n))
  {
    var files := seq(n, _ => File("id", "name", []));
    var create := CreateBatch("u", "p", "configured", files);
    InitialReachable();
    ReachableStep(INITIAL, create);
    var s := Apply(INITIAL, create);
    assert s.batches == [Batch("u", "p", 0, "configured", files, BatchItems(0, "configured", files), Committed)];
    ReachableStep(s, EnqueueFirst(0, Stored));
    var s' := Apply(s, EnqueueFirst(0, Stored));
    assert s'.runs == Scheduled(n).runs && s'.batches == Scheduled(n).batches && s'.tasks == Scheduled(n).tasks;
  }

  /** A new delivery of a task passes the terminal check while its run is not finished. */
  lemma Delivered(s: State, t: nat) returns (s': State)
    requires Reachable(s) && t < |s.tasks| && Parse(s.tasks[t].body).item.run < |s.runs|
    requires !Terminal(s.runs[Parse(s.tasks[t].body).item.run].status)
    ensures Reachable(s')
    ensures s' == s.(deliveries := s.deliveries + [Delivery(t, Parse(s.tasks[t].body), SetUp)])
  {
    var d := |s.deliveries|;
    ReachableStep(s, Deliver(t));
    s' := Apply(s, Deliver(t));
    assert At(s', d, Check);
    ReachableStep(s', CheckTerminal(d));
    s' := Apply(s', CheckTerminal(d));
  }

  /** A delivery whose run is still PENDING claims it. */
  lemma ClaimsIt(s: State, d: nat) returns (s': State)
    requires Reachable(s) && At(s, d, SetUp) && s.runs[s.deliveries[d].Run()].status == Pending
    ensures Reachable(s')
    ensures s'.runs == s.runs[s.deliveries[d].Run() := s.runs[s.deliveries[d].Run()].(status := InProgress)]
    ensures s'.deliveries == s.deliveries[d := s.deliveries[d].(pc := Load)]
    ensures s'.tasks == s.tasks && s'.batches == s.batches
  {
    ReachableStep(s, SetUpStorage(d, true));
    s' := Apply(s, SetUpStorage(d, true));
    ReachableStep(s', ClaimRun(d));
    s' := Apply(s', ClaimRun(d));
  }

  /** A delivery whose run is still PENDING claims it and runs as far as the pipeline's work. */
  lemma RunsToWork(s: State, d: nat) returns (s': State)
    requires Reachable(s) && At(s, d, SetUp) && s.runs[s.deliveries[d].Run()].status == Pending
    ensures Reachable(s')
    ensures s'.runs == s.runs[s.deliveries[d].Run() := s.runs[s.deliveries[d].Run()].(status := InProgress)]
    ensures s'.deliveries == s.deliveries[d := s.deliveries[d].(pc := Work)]
    ensures s'.tasks == s.tasks && s'.batches == s.batches
  {
    s' := ClaimsIt(s, d);
    ReachableStep(s', LoadRun(d));
    s' := Apply(s', LoadRun(d));
    ReachableStep(s', BeginPipeline(d));
    s' := Apply(s', BeginPipeline(d));
  }

  /** A delivery whose run is already claimed skips the pipeline and enqueues the next item. */
  lemma LosesClaimAndAdvances(s: State, d: nat) returns (s': State)
    requires Reachable(s) && At(s, d, SetUp) && s.runs[s.deliveries[d].Run()].status == InProgress
    requires s.deliveries[d].task < |s.tasks| && s.deliveries[d].payload.rest != []
    ensures Reachable(s')
    ensures s'.runs == s.runs && s'.deliveries == s.deliveries[d := s.deliveries[d].(pc := Ack)]
    ensures |s'.tasks| == |s.tasks| + 1 && s'.tasks[|s.tasks|].body == NextBody(s.deliveries[d].payload)
  {
    ReachableStep(s, SetUpStorage(d, true));
    s' := Apply(s, SetUpStorage(d, true));
    ReachableStep(s', ClaimRun(d));
    s' := Apply(s', ClaimRun(d));
    ReachableStep(s', AdvanceChain(d, Stored));
    s' := Apply(s', AdvanceChain(d, Stored));
  }

  /** A delivery's storage setup fails, and it loads the run to mark it. */
  lemma SetupFails(s: State, d: nat) returns (s': State)
    requires Reachable(s) && At(s, d, SetUp)
    ensures Reachable(s')
    ensures var loaded := s.runs[s.deliveries[d].Run()].status;
            s' == s.(deliveries := s.deliveries[d := s.deliveries[d].(pc := Failing(loaded))])
  {
    ReachableStep(s, SetUpStorage(d, false));
    s' := Apply(s, SetUpStorage(d, false));
    ReachableStep(s', LoadToFail(d));
    s' := Apply(s', LoadToFail(d));
  }

  /** It marks the run, unless it had loaded FAILED. */
  lemma Marks(s: State, d: nat) returns (s': State)
    requires Reachable(s) && d < |s.deliveries| && s.deliveries[d].Run() < |s.runs|
    requires s.deliveries[d].pc.Failing? && s.deliveries[d].pc.loaded != Failed
    ensures Reachable(s')
    ensures s'.runs == s.runs[s.deliveries[d].Run() := Run(Failed, s.runs[s.deliveries[d].Run()].setupFailures + 1)]
    ensures s'.deliveries == s.deliveries[d := s.deliveries[d].(pc := Advance)]
  {
    ReachableStep(s, FailWithoutStorage(d));
    s' := Apply(s, FailWithoutStorage(d));
  }

  lemma Succeeds(s: State, d: nat) returns (s': State)
    requires Reachable(s) && At(s, d, Work)
    ensures Reachable(s')
    ensures s'.deliveries == s.deliveries[d := s.deliveries[d].(pc := Move)]
    ensures s'.runs == s.runs[s.deliveries[d].Run() := s.runs[s.deliveries[d].Run()].(status := Success)]
  {
    ReachableStep(s, FinishPipeline(d, true));
    s' := Apply(s, FinishPipeline(d, true));
  }

  /** The claimant of a run at work, and a second delivery whose failed setup is about to mark the run. */
  lemma FailingAtWork() returns (s: State)
    ensures Reachable(s) && s.runs == [Run(InProgress, 0)] && At(s, 0, Work) && |s.deliveries| == 2
    ensures s.deliveries[0].Run() == s.deliveries[1].Run() == 0 && s.deliveries[1].pc == Failing(InProgress)
  {
    ScheduledReachable(1);
    s := Scheduled(1);
    assert Parse(s.tasks[0].body).item.run == 0;
    hide Reachable, Scheduled, Parse;
    s := Delivered(s, 0);
    s := Delivered(s, 0);
    s := RunsToWork(s, 0);
    s := SetupFails(s, 1);
  }

  /** A terminal status need not be final: a second delivery of the same task passes the terminal
      check while the first is at work, the first succeeds, and then the second fails to set up
      storage and turns the successful run into a failed one. */
  lemma SuccessMayBecomeFailed() returns (s: State, a: Action)
    ensures Reachable(s) && Enabled(s, a)
    ensures s.runs == [Run(Success, 0)]
    ensures Apply(s, a).runs == [Run(Failed, 1)]
  {
    s := FailingAtWork();
    s := Succeeds(s, 0);
    a := FailWithoutStorage(1);
  }

  /** The same two deliveries after the mark. */
  lemma MarkedAtWork() returns (s: State)
    ensures Reachable(s) && s.runs == [Run(Failed, 1)] && At(s, 0, Work) && s.deliveries[0].Run() == 0
  {
    s := FailingAtWork();
    s := Marks(s, 1);
  }

  /** Nor is FAILED final: the claimant of a run that another delivery's failed setup has marked
      finishes and overwrites it. */
  lemma FailedMayBecomeSuccess() returns (s: State, a: Action)
    ensures Reachable(s) && Enabled(s, a)
    ensures s.runs == [Run(Failed, 1)]
    ensures Apply(s, a).runs == [Run(Success, 1)]
  {
    s := MarkedAtWork();
    a := FinishPipeline(0, true);
  }

  /** A run that is claimed and then marked, before its claimant has loaded it. */
  lemma MarkedBeforeLoad() returns (s: State)
    ensures Reachable(s) && s.runs == [Run(Failed, 1)] && At(s, 0, Load) && s.deliveries[0].Run() == 0
  {
    ScheduledReachable(1);
    s := Scheduled(1);
    assert Parse(s.tasks[0].body).item.run == 0;
    s := Delivered(s, 0);
    s := Delivered(s, 0);
    s := SetupFails(s, 1);
    s := ClaimsIt(s, 0);
    s := Marks(s, 1);
  }

  /** And a claimant that loads its run only after the mark starts by setting it back to IN_PROGRESS. */
  lemma FailedMayBecomeInProgress() returns (s: State, a: Action)
    ensures Reachable(s) && Enabled(s, a)
    ensures s.runs == [Run(Failed, 1)]
    ensures Apply(s, a).runs == [Run(InProgress, 1)]
  {
    s := MarkedBeforeLoad();
    ReachableStep(s, LoadRun(0));
    s := Apply(s, LoadRun(0));
    a := BeginPipeline(0);
  }

  /** With redelivery two items of one batch may be at work at once: a second delivery of the first
      task loses the claim, and still advances the chain while the first delivery is at work. */
  lemma BatchItemsMayOverlap() returns (s: State)
    ensures Reachable(s) && |s.deliveries| == 3
    ensures s.deliveries[0].pc == Work && s.deliveries[2].pc == Work
    ensures s.deliveries[0].Run() == 0 && s.deliveries[2].Run() == 1
  {
    ScheduledReachable(2);
    s := Scheduled(2);
    var items := s.batches[0].items;
    FirstBodyCarriesBatch("u", "p", items);
    NextBodyRefinesDirect("u", "p", items, 0);
    s := Delivered(s, 0);
    s := RunsToWork(s, 0);
    s := Delivered(s, 0);
    s := LosesClaimAndAdvances(s, 1);
    s := Delivered(s, 1);
    s := RunsToWork(s, 2);
  }
}
