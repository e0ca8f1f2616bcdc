/** When the terminal status of a run is final: exactly when no handler that is under way can overwrite it. */
module DispatchFinality {
  import opened Wrappers
  import opened Dispatch
  import opened DispatchInvariants
  import opened DispatchClaims
  import opened DispatchTheorems

  // ---------- Who can overwrite a terminal status ----------

  /** The claimant has not finished. */
  predicate Unfinished(pc: Pc) {
    pc == Load || pc.Begin? || pc == Work
  }

  /** The delivery has passed the terminal check, and if its storage setup fails, or has failed, it will
      write FAILED. */
  predicate MaySetUp(pc: Pc) {
    pc == SetUp || pc == SetupFailed || (pc.Failing? && pc.loaded != Failed)
  }

  /** The endpoint will mark item `i` of its batch, not having loaded FAILED for it. */
  predicate WillMark(s: State, b: nat, i: nat)
    requires b < |s.batches|
  {
    var endpoint := s.batches[b].endpoint;
    endpoint.Marking? && endpoint.marked <= i < |s.batches[b].items|
    && !(endpoint.marked == i && endpoint.seen == Some(Failed))
  }

  ghost predicate ClaimantAtWork(s: State, r: nat) {
    exists d :: 0 <= d < |s.deliveries| && s.deliveries[d].Run() == r && Unfinished(s.deliveries[d].pc)
  }

  ghost predicate SetupAhead(s: State, r: nat) {
    exists d :: 0 <= d < |s.deliveries| && s.deliveries[d].Run() == r && MaySetUp(s.deliveries[d].pc)
  }

  ghost predicate MarkAhead(s: State, r: nat) {
    exists b, i :: 0 <= b < |s.batches| && 0 <= i < |s.batches[b].items| && s.batches[b].items[i].run == r
                   && WillMark(s, b, i)
  }

  /** A handler under way can give the finished run another status: its claimant, which has not finished
      though a failed setup has marked the run; or, if it was successful, a delivery that has passed the
      terminal check and not yet set up storage, or an endpoint whose enqueue failed after the queue had
      stored the task. */
  ghost predicate Threatened(s: State, r: nat)
    requires r < |s.runs|
  {
    ClaimantAtWork(s, r) || (s.runs[r].status == Success && (SetupAhead(s, r) || MarkAhead(s, r)))
  }

  // ---------- Batches not yet scheduled ----------

  /** Until its endpoint has called the queue, the runs of a batch are as they were created. */
  ghost predicate CommittedOk(s: State) {
    forall b, r :: 0 <= b < |s.batches| && s.batches[b].endpoint == Committed
                   && s.batches[b].first <= r < s.batches[b].first + |s.batches[b].items| && r < |s.runs| ==>
      s.runs[r] == Run(Pending, 0)
  }

  /** Nobody writes to the run of a batch that is not scheduled. */
  lemma NotWritten(s: State, a: Action, b: nat, r: nat)
    requires Inv(s) && Enabled(s, a) && b < |s.batches| && s.batches[b].endpoint == Committed
    requires s.batches[b].first <= r < s.batches[b].first + |s.batches[b].items| && r < |s.runs|
    ensures WriteTo(s, a, r) == Untouched
  {
    if Actor(a).Some? {
      var d := Actor(a).value;
      assert DeliveryOk(s, d);
      DeliveryItem(s, d);
      assert TaskOk(s, s.deliveries[d].task) && BatchOk(s, TaskOf(s, d).batch);
    } else if a.MarkFailed? {
      assert BatchOk(s, a.batch) && BatchOk(s, b);
    }
  }

  lemma KeepsCommitted(s: State, a: Action)
    requires Inv(s) && CommittedOk(s) && Enabled(s, a)
    ensures CommittedOk(Apply(s, a))
  {
    var s' := Apply(s, a);
    forall b, r | 0 <= b < |s'.batches| && s'.batches[b].endpoint == Committed
                  && s'.batches[b].first <= r < s'.batches[b].first + |s'.batches[b].items| && r < |s'.runs|
      ensures s'.runs[r] == Run(Pending, 0)
    {
      if b < |s.batches| {
        assert BatchOk(s, b);
        assert s.batches[b].endpoint == Committed;
        NotWritten(s, a, b, r);
        ApplyWrites(s, a, r);
      }
    }
  }

  lemma {:induction false} BehaviourKeepsCommitted(s: State, actions: seq<Action>)
    requires Inv(s) && CommittedOk(s) && Possible(s, actions)
    ensures CommittedOk(After(s, actions))
    decreases |actions|
  {
    if actions != [] {
      KeepsInv(s, actions[0]);
      KeepsCommitted(s, actions[0]);
      BehaviourKeepsCommitted(Apply(s, actions[0]), actions[1..]);
    }
  }

  lemma ReachableCommitted(s: State)
    requires Reachable(s)
    ensures Inv(s) && CommittedOk(s)
  {
    ReachableInv(s);
    InitialInv();
    var actions :| Possible(INITIAL, actions) && After(INITIAL, actions) == s;
    BehaviourKeepsCommitted(INITIAL, actions);
  }

  // ---------- Without a threat the status stays ----------

  lemma NoThreatNoOverwrite(s: State, a: Action, r: nat)
    requires Enabled(s, a) && r < |s.runs| && Terminal(s.runs[r].status) && !Threatened(s, r)
    ensures !Overwrites(s, a, r)
  {
    if WriteTo(s, a, r).Fails? && a.MarkFailed? {
      var k := s.batches[a.batch].endpoint.marked;
      assert s.batches[a.batch].items[k].run == r;
    }
  }

  /** The deliveries of a run are those that were there, or about to check its status. */
  lemma WasThere(s: State, a: Action, r: nat, d: nat)
    requires Enabled(s, a) && d < |Apply(s, a).deliveries| && Apply(s, a).deliveries[d].Run() == r
    ensures d < |s.deliveries| ==>
              s.deliveries[d].Run() == r && (Actor(a) != Some(d) ==> Apply(s, a).deliveries[d] == s.deliveries[d])
    ensures d >= |s.deliveries| ==> Apply(s, a).deliveries[d].pc == Check
  {
  }

  /** No delivery comes to threaten a finished run: a new one sees the terminal status. */
  lemma NoNewClaimant(s: State, a: Action, r: nat, d: nat)
    requires Enabled(s, a) && r < |s.runs| && Terminal(s.runs[r].status)
    requires d < |Apply(s, a).deliveries| && Apply(s, a).deliveries[d].Run() == r
    requires Unfinished(Apply(s, a).deliveries[d].pc)
    ensures ClaimantAtWork(s, r)
  {
    WasThere(s, a, r, d);
    assert Unfinished(s.deliveries[d].pc);
  }

  lemma NoNewSetup(s: State, a: Action, r: nat, d: nat)
    requires Enabled(s, a) && r < |s.runs| && Terminal(s.runs[r].status)
    requires d < |Apply(s, a).deliveries| && Apply(s, a).deliveries[d].Run() == r
    requires MaySetUp(Apply(s, a).deliveries[d].pc)
    ensures SetupAhead(s, r)
  {
    WasThere(s, a, r, d);
    assert MaySetUp(s.deliveries[d].pc);
  }

  lemma NoNewMark(s: State, a: Action, r: nat, b: nat, i: nat)
    requires Inv(s) && CommittedOk(s) && Enabled(s, a) && r < |s.runs| && s.runs[r].status == Success
    requires b < |Apply(s, a).batches| && i < |Apply(s, a).batches[b].items|
    requires Apply(s, a).batches[b].items[i].run == r && WillMark(Apply(s, a), b, i)
    ensures MarkAhead(s, r)
  {
    ApplyEvolves(s, a);
    assert BatchOk(s, b);
    assert s.batches[b].items[i].run == r;
    assert s.batches[b].endpoint != Committed;
    assert WillMark(s, b, i);
  }

  lemma NoThreatStays(s: State, a: Action, r: nat)
    requires Inv(s) && CommittedOk(s) && Enabled(s, a) && r < |s.runs| && Terminal(s.runs[r].status)
    requires !Threatened(s, r)
    ensures r < |Apply(s, a).runs| && Apply(s, a).runs[r].status == s.runs[r].status && !Threatened(Apply(s, a), r)
  {
    TerminalChangesIff(s, a, r);
    NoThreatNoOverwrite(s, a, r);
    var s' := Apply(s, a);
    if ClaimantAtWork(s', r) {
      var d :| 0 <= d < |s'.deliveries| && s'.deliveries[d].Run() == r && Unfinished(s'.deliveries[d].pc);
      NoNewClaimant(s, a, r, d);
    }
    if s.runs[r].status == Success && SetupAhead(s', r) {
      var d :| 0 <= d < |s'.deliveries| && s'.deliveries[d].Run() == r && MaySetUp(s'.deliveries[d].pc);
      NoNewSetup(s, a, r, d);
    }
    if s.runs[r].status == Success && MarkAhead(s', r) {
      var b, i :| 0 <= b < |s'.batches| && 0 <= i < |s'.batches[b].items| && s'.batches[b].items[i].run == r
                  && WillMark(s', b, i);
      NoNewMark(s, a, r, b, i);
    }
  }

  lemma {:induction false} Untouchable(s: State, more: seq<Action>, r: nat)
    requires Inv(s) && CommittedOk(s) && Possible(s, more) && r < |s.runs| && Terminal(s.runs[r].status)
    requires !Threatened(s, r)
    ensures r < |After(s, more).runs| && After(s, more).runs[r].status == s.runs[r].status
    decreases |more|
  {
    if more != [] {
      KeepsInv(s, more[0]);
      KeepsCommitted(s, more[0]);
      NoThreatStays(s, more[0], r);
      Untouchable(Apply(s, more[0]), more[1..], r);
    }
  }

  // ---------- A threat can be carried out ----------

  /** A continuation after which the row has another status. */
  ghost predicate Changes(s: State, more: seq<Action>, r: nat, status: RunStatus) {
    Possible(s, more) && r < |After(s, more).runs| && After(s, more).runs[r].status != status
  }

  lemma ChangesOneEarlier(s: State, a: Action, more: seq<Action>, r: nat, status: RunStatus)
    requires Enabled(s, a) && Changes(Apply(s, a), more, r, status)
    ensures Changes(s, [a] + more, r, status)
  {
    assert ([a] + more)[0] == a && ([a] + more)[1..] == more;
  }

  lemma ChangesNow(s: State, a: Action, r: nat, status: RunStatus)
    requires Enabled(s, a) && r < |Apply(s, a).runs| && Apply(s, a).runs[r].status != status
    ensures Changes(s, [a], r, status)
  {
    assert Changes(Apply(s, a), [], r, status);
    ChangesOneEarlier(s, a, [], r, status);
    assert [a] + [] == [a];
  }

  /** The claimant goes on to its end and writes the other outcome. */
  lemma ClaimantOverturns(s: State, d: nat, status: RunStatus) returns (more: seq<Action>)
    requires d < |s.deliveries| && s.deliveries[d].Run() < |s.runs| && Unfinished(s.deliveries[d].pc)
    ensures Changes(s, more, s.deliveries[d].Run(), status)
    decreases if s.deliveries[d].pc == Load then 2 else if s.deliveries[d].pc.Begin? then 1 else 0
  {
    if s.deliveries[d].pc == Work {
      more := [FinishPipeline(d, status != Success)];
      ChangesNow(s, more[0], s.deliveries[d].Run(), status);
    } else {
      var a := if s.deliveries[d].pc == Load then LoadRun(d) else BeginPipeline(d);
      more := ClaimantOverturns(Apply(s, a), d, status);
      ChangesOneEarlier(s, a, more, s.deliveries[d].Run(), status);
      more := [a] + more;
    }
  }

  /** The storage setup of a delivery fails, and it marks the run. */
  lemma SetupOverturns(s: State, d: nat) returns (more: seq<Action>)
    requires d < |s.deliveries| && s.deliveries[d].Run() < |s.runs| && MaySetUp(s.deliveries[d].pc)
    requires s.runs[s.deliveries[d].Run()].status == Success
    ensures Changes(s, more, s.deliveries[d].Run(), Success)
    decreases if s.deliveries[d].pc == SetUp then 2 else if s.deliveries[d].pc == SetupFailed then 1 else 0
  {
    if s.deliveries[d].pc.Failing? {
      more := [FailWithoutStorage(d)];
      ChangesNow(s, more[0], s.deliveries[d].Run(), Success);
    } else {
      var a := if s.deliveries[d].pc == SetUp then SetUpStorage(d, false) else LoadToFail(d);
      more := SetupOverturns(Apply(s, a), d);
      ChangesOneEarlier(s, a, more, s.deliveries[d].Run(), Success);
      more := [a] + more;
    }
  }

  /** The endpoint marks the items before this one, and then this one. */
  lemma {:induction false} MarkOverturns(s: State, b: nat, i: nat) returns (more: seq<Action>)
    requires b < |s.batches| && BatchOk(s, b) && i < |s.batches[b].items| && WillMark(s, b, i)
    requires s.runs[s.batches[b].items[i].run].status == Success
    ensures Changes(s, more, s.batches[b].items[i].run, Success)
    decreases i - s.batches[b].endpoint.marked, if s.batches[b].endpoint.seen == None then 1 else 0
  {
    var r, endpoint := s.batches[b].items[i].run, s.batches[b].endpoint;
    if endpoint.marked == i && endpoint.seen.Some? {
      more := [MarkFailed(b)];
      ChangesNow(s, more[0], r, Success);
    } else {
      var a := if endpoint.seen == None then LoadToMark(b) else MarkFailed(b);
      more := MarkOverturns(Apply(s, a), b, i);
      ChangesOneEarlier(s, a, more, r, Success);
      more := [a] + more;
    }
  }

  lemma ThreatCarriedOut(s: State, r: nat) returns (more: seq<Action>)
    requires Inv(s) && r < |s.runs| && Threatened(s, r)
    ensures Changes(s, more, r, s.runs[r].status)
  {
    if ClaimantAtWork(s, r) {
      var d :| 0 <= d < |s.deliveries| && s.deliveries[d].Run() == r && Unfinished(s.deliveries[d].pc);
      more := ClaimantOverturns(s, d, s.runs[r].status);
    } else if SetupAhead(s, r) {
      var d :| 0 <= d < |s.deliveries| && s.deliveries[d].Run() == r && MaySetUp(s.deliveries[d].pc);
      more := SetupOverturns(s, d);
    } else {
      var b, i :| 0 <= b < |s.batches| && 0 <= i < |s.batches[b].items| && s.batches[b].items[i].run == r
                  && WillMark(s, b, i);
      assert BatchOk(s, b);
      more := MarkOverturns(s, b, i);
    }
  }

  ghost predicate IsFinal(s: State, r: nat)
    requires r < |s.runs|
  {
    forall more {:trigger Possible(s, more)} :: Possible(s, more) ==>
      r < |After(s, more).runs| && After(s, more).runs[r].status == s.runs[r].status
  }

  /** The terminal status of a run is final, whatever happens from here on, if and only if no handler under
      way threatens it. */
  lemma FinalIff(s: State, r: nat)
    requires Reachable(s) && r < |s.runs| && Terminal(s.runs[r].status)
    ensures IsFinal(s, r) <==> !Threatened(s, r)
  {
    ReachableCommitted(s);
    if Threatened(s, r) {
      var more := ThreatCarriedOut(s, r);
      assert Possible(s, more);
    } else {
      forall more | Possible(s, more)
        ensures r < |After(s, more).runs| && After(s, more).runs[r].status == s.runs[r].status
      {
        Untouchable(s, more, r);
      }
    }
  }
}
