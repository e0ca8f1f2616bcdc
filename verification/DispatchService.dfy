/** The functions of the push handler and of the import endpoint, as code over the run rows and the
    queue. Between any two of their operations other deliveries, endpoints and the queue act. The
    `model` follows each operation with the matching action of the transition system, so whatever
    these methods do is a behaviour of it and the protocol's guarantees hold of the real fields. */
module DispatchService {
  import opened Wrappers
  import opened Payloads
  import opened Dispatch
  import opened DispatchInvariants
  import opened DispatchClaims
  import opened DispatchTheorems

  /** What the handler answers: 200 in two forms, or an exception (the queue will retry). */
  datatype Reply = Done | AlreadyTerminal | Unanswered

  datatype ImportReply = RunId(run: nat) | DispatchError | Lost

  /** Whatever others do between two operations of delivery `d` leaves that delivery alone and lets
      the rest only evolve. */
  lemma OthersLeaveDeliveryAlone(s: State, a: Action, d: nat)
    requires Enabled(s, a) && d < |s.deliveries| && Actor(a) != Some(d)
    ensures Evolves(s, Apply(s, a)) && Apply(s, a).deliveries[d] == s.deliveries[d]
  {
    ApplyEvolves(s, a);
  }

  function Bodies(tasks: seq<Task>): (bodies: seq<Body>)
    ensures |bodies| == |tasks| && forall t :: 0 <= t < |tasks| ==> bodies[t] == tasks[t].body
  {
    seq(|tasks|, t requires 0 <= t < |tasks| => tasks[t].body)
  }

  lemma OthersLeaveEndpointAlone(s: State, a: Action, b: nat)
    requires Enabled(s, a) && b < |s.batches| && !ActsFor(a, b)
    ensures Evolves(s, Apply(s, a)) && Apply(s, a).batches[b] == s.batches[b]
  {
    ApplyEvolves(s, a);
    EndpointIdle(s, a, b);
  }

  /** A delivery about to hand the batch on, or to answer, has a run that is not PENDING. */
  lemma HandingOnMeansStarted(s: State, d: nat)
    requires Reachable(s) && (At(s, d, Advance) || At(s, d, Ack))
    ensures s.runs[s.deliveries[d].Run()].status != Pending
    ensures s.deliveries[d].task < |s.tasks|
  {
    ReachableInv(s);
    assert DeliveryOk(s, d);
  }

  class Service {
    var runs: seq<Run>
    var queue: seq<Body>
    var model: State
    var others: seq<Action> // what others try to do, one action at each suspension
    var budget: nat         // suspensions to survive before the running request is killed

    ghost predicate Valid()
      reads this
    {
      && Reachable(model)
      && runs == model.runs
      && |queue| == |model.tasks|
      && forall t :: 0 <= t < |queue| ==> queue[t] == model.tasks[t].body
    }

    /** An empty database and an empty queue. */
    constructor (others: seq<Action>, budget: nat)
      ensures Valid() && model == INITIAL
    {
      runs, queue, model := [], [], INITIAL;
      this.others, this.budget := others, budget;
      new;
      assert Possible(INITIAL, []) && After(INITIAL, []) == INITIAL;
    }

    /** Where delivery `d` stands after an operation that may have been cut short. */
    ghost predicate EndsAt(d: nat, before: State, o: Outcome, pc: Pc)
      requires d < |before.deliveries|
      reads this
    {
      && d < |model.deliveries|
      && (o == Completed ==>
            model.deliveries[d] == before.deliveries[d].(pc := pc) && model.deliveries[d].Run() < |runs|)
      && (o == Stopped ==> model.deliveries[d].pc == Gone)
    }

    /** What a request with nobody else acting makes of the rows: row `run` becomes `row`. */
    twostate predicate Alone(o: Outcome, run: nat, row: Run)
      reads this
    {
      o == Completed && old(others) == [] ==>
        others == [] && run < |old(runs)| && runs == old(runs)[run := row]
    }

    /** The model takes the action that the fields have just taken. */
    method Follow(a: Action)
      requires Reachable(model) && Enabled(model, a)
      modifies this`model
      ensures Reachable(model) && model == Apply(old(model), a)
    {
      ReachableStep(model, a);
      model := Apply(model, a);
    }

    /** An action of somebody else. */
    method ActOthers(a: Action)
      requires Valid() && Enabled(model, a)
      modifies this`model, this`runs, this`queue
      ensures Valid() && model == Apply(old(model), a)
    {
      Follow(a);
      runs, queue := model.runs, Bodies(model.tasks);
    }

    /** A suspension point of delivery `d`: another delivery, an endpoint or the queue acts, or the
        request is killed here. */
    method Await(d: nat) returns (o: Outcome)
      requires Valid() && d < |model.deliveries| && model.deliveries[d].pc != Gone
      modifies this
      ensures Valid()
      ensures Evolves(old(model), model)
      ensures d < |model.deliveries| && (o == Completed ==> model.deliveries[d] == old(model).deliveries[d])
      ensures d < |model.deliveries| && (o == Stopped ==> model.deliveries[d].pc == Gone)
      ensures o == Stopped <==> old(budget) == 0
      ensures budget == if o == Stopped then 0 else old(budget) - 1
      ensures old(others) == [] ==> others == [] && runs == old(runs)
    {
      if budget == 0 {
        ApplyEvolves(model, Kill(d));
        Follow(Kill(d));
        return Stopped;
      }
      budget := budget - 1;
      if others != [] {
        var a := others[0];
        others := others[1..];
        if Enabled(model, a) && Actor(a) != Some(d) {
          OthersLeaveDeliveryAlone(model, a, d);
          ActOthers(a);
        }
      }
      return Completed;
    }

    // ---------- dispatch.py ----------

    method RunAlreadyTerminal(d: nat, run: nat) returns (terminal: bool)
      requires Valid() && At(model, d, Check) && model.deliveries[d].Run() == run
      modifies this`model
      ensures Valid() && model == Apply(old(model), CheckTerminal(d))
      ensures terminal <==> Terminal(runs[run].status)
      ensures EndsAt(d, old(model), Completed, if terminal then Advance else SetUp)
    {
      terminal := runs[run].status == Success || runs[run].status == Failed;
      Follow(CheckTerminal(d));
    }

    /** The compare-and-swap: it succeeds exactly on a PENDING row and writes nothing otherwise. */
    method ClaimRun(d: nat, run: nat) returns (claimed: bool)
      requires Valid() && At(model, d, Claim) && model.deliveries[d].Run() == run
      modifies this`runs, this`model
      ensures Valid() && model == Apply(old(model), Action.ClaimRun(d))
      ensures claimed <==> old(runs)[run].status == Pending
      ensures claimed ==> runs == old(runs)[run := old(runs)[run].(status := InProgress)]
      ensures !claimed ==> runs == old(runs)
    {
      claimed := runs[run].status == Pending;
      if claimed {
        runs := runs[run := runs[run].(status := InProgress)];
      }
      Follow(Action.ClaimRun(d));
    }

    /** `_fail_run_without_storage` for delivery `d`: whatever has happened since the run was loaded,
        its row gets one more failed step, and FAILED unless FAILED is what was loaded. */
    method FailRunWithoutStorage(d: nat, run: nat) returns (o: Outcome)
      requires Valid() && At(model, d, SetupFailed) && model.deliveries[d].Run() == run
      modifies this
      ensures Valid() && EndsAt(d, old(model), o, Advance) && Spends(old(budget), budget, 1, o)
      ensures o == Completed ==>
                && runs[run].setupFailures > old(runs)[run].setupFailures && runs[run].status != Pending
                && (old(runs)[run].status != Failed ==> runs[run].status == Failed)
      ensures Alone(o, run, Run(Failed, old(runs)[run].setupFailures + 1))
    {
      var loaded := runs[run].status;
      Follow(LoadToFail(d));
      o := Await(d);
      if o == Stopped { return; }
      CommitFailure(d, run, loaded);
    }

    /** The commit of a mark. */
    method CommitFailure(d: nat, run: nat, loaded: RunStatus)
      requires Valid() && d < |model.deliveries| && model.deliveries[d].pc == Failing(loaded)
      requires model.deliveries[d].Run() == run < |model.runs|
      modifies this`runs, this`model
      ensures Valid() && model == Apply(old(model), FailWithoutStorage(d))
      ensures run < |old(runs)| && runs == old(runs)[run := FailRow(old(runs)[run], loaded)]
      ensures runs[run].status != Pending
    {
      runs := runs[run := runs[run].(setupFailures := runs[run].setupFailures + 1)];
      if loaded != Failed {
        runs := runs[run := runs[run].(status := Failed)];
      }
      Follow(FailWithoutStorage(d));
      HandingOnMeansStarted(model, d);
    }

    /** Reads the claimed row back and commits the start: the status is written only if the session
        loaded another one. */
    method StartPipeline(d: nat, run: nat) returns (o: Outcome)
      requires Valid() && At(model, d, Load) && model.deliveries[d].Run() == run
      modifies this
      ensures Valid() && EndsAt(d, old(model), o, Work) && Spends(old(budget), budget, 1, o)
      ensures Alone(o, run, old(runs)[run].(status := InProgress))
    {
      var loaded := runs[run].status;
      Follow(LoadRun(d));
      :- Await(d);
      if loaded != InProgress {
        runs := runs[run := runs[run].(status := InProgress)];
      }
      Follow(BeginPipeline(d));
      return Completed;
    }

    /** The end of the pipeline: the terminal status, and then the move of the file. */
    method EndPipeline(d: nat, run: nat, succeeds: bool) returns (o: Outcome)
      requires Valid() && At(model, d, Work) && model.deliveries[d].Run() == run
      modifies this
      ensures Valid() && EndsAt(d, old(model), o, Advance) && Spends(old(budget), budget, 1, o)
      ensures Alone(o, run, old(runs)[run].(status := if succeeds then Success else Failed))
    {
      runs := runs[run := runs[run].(status := if succeeds then Success else Failed)];
      Follow(FinishPipeline(d, succeeds));
      o := Await(d);
      if o == Stopped { return; }
      Follow(MoveFile(d));
    }

    /** The claimed part of a dispatch: run the steps, commit the terminal status, move the file. */
    method RunPipeline(d: nat, run: nat, succeeds: bool) returns (o: Outcome)
      requires Valid() && At(model, d, Load) && model.deliveries[d].Run() == run
      modifies this
      ensures Valid() && EndsAt(d, old(model), o, Advance) && Spends(old(budget), budget, 3, o)
      ensures Alone(o, run, old(runs)[run].(status := if succeeds then Success else Failed))
    {
      o := StartPipeline(d, run);
      if o == Stopped { return; }
      :- Await(d);
      o := EndPipeline(d, run, succeeds);
    }

    /** The session block of a dispatch: only the delivery whose claim succeeds runs the pipeline. */
    method ClaimAndRun(d: nat, run: nat, succeeds: bool) returns (o: Outcome)
      requires Valid() && At(model, d, Claim) && model.deliveries[d].Run() == run
      modifies this
      ensures Valid() && EndsAt(d, old(model), o, Advance) && Spends(old(budget), budget, 4, o)
      ensures var row := old(runs)[run];
              Alone(o, run, if row.status != Pending then row
                            else row.(status := if succeeds then Success else Failed))
    {
      var claimed := ClaimRun(d, run);
      if claimed {
        :- Await(d);
        :- RunPipeline(d, run, succeeds);
      }
      return Completed;
    }

    /** What a dispatch does once it is known whether the storage provider could be rebuilt. */
    method FailOrRun(d: nat, run: nat, setupOk: bool, succeeds: bool) returns (o: Outcome)
      requires Valid() && At(model, d, if setupOk then Claim else SetupFailed) && model.deliveries[d].Run() == run
      modifies this
      ensures Valid() && EndsAt(d, old(model), o, Advance) && Spends(old(budget), budget, 4, o)
      ensures var row := old(runs)[run];
              Alone(o, run, if !setupOk then Run(Failed, row.setupFailures + 1)
                            else if row.status != Pending then row
                            else row.(status := if succeeds then Success else Failed))
    {
      hide Apply, Enabled, Reachable;
      if !setupOk {
        o := FailRunWithoutStorage(d, run);
      } else {
        o := ClaimAndRun(d, run, succeeds);
      }
    }

    /** `build_storage_provider` for delivery `d`. */
    method RebuildStorage(d: nat, ok: bool)
      requires Valid() && At(model, d, SetUp)
      modifies this`model
      ensures Valid() && EndsAt(d, old(model), Completed, if ok then Claim else SetupFailed)
    {
      Follow(SetUpStorage(d, ok));
    }

    /** `run_pipeline_dispatch`: normal return means the run is no longer PENDING, whichever path
        was taken. */
    method RunPipelineDispatch(d: nat, payload: Payload, setupOk: bool, succeeds: bool) returns (o: Outcome)
      requires Valid() && At(model, d, SetUp) && model.deliveries[d].payload == payload
      modifies this
      ensures Valid() && EndsAt(d, old(model), o, Advance) && Spends(old(budget), budget, 6, o)
      ensures o == Completed ==> payload.item.run < |runs| && runs[payload.item.run].status != Pending
      ensures var row := old(runs)[payload.item.run];
              Alone(o, payload.item.run, if !setupOk then Run(Failed, row.setupFailures + 1)
                                         else if row.status != Pending then row
                                         else row.(status := if succeeds then Success else Failed))
    {
      hide Apply, Enabled, Reachable;
      var run := payload.item.run;
      :- Await(d);
      RebuildStorage(d, setupOk);
      :- Await(d);
      o := FailOrRun(d, run, setupOk, succeeds);
      if o == Completed { HandingOnMeansStarted(model, d); }
    }

    // ---------- internal_pipeline.py ----------

    /** `_advance_batch_chain`: enqueues the next item with the tail of the batch, if there is one. */
    method AdvanceBatchChain(d: nat, payload: Payload, outcome: Enqueue) returns (o: Outcome)
      requires Valid() && At(model, d, Advance) && model.deliveries[d].payload == payload
      modifies this
      ensures Valid()
      ensures EndsAt(d, old(model), o, Ack)
      ensures o == Completed && payload.rest != [] ==> NextBody(payload) in queue
      ensures if payload.rest == [] || outcome == Stored then Spends(old(budget), budget, 1, o) else o == Stopped
      ensures old(others) == [] ==> others == [] && runs == old(runs)
    {
      o := Await(d);
      if o == Stopped { return; }
      if payload.rest == [] {
        HandingOnMeansStarted(model, d);
        Follow(AdvanceChain(d, Stored));
        return Completed;
      }
      EnqueueNext(d, payload, outcome);
      return if outcome == Stored then Completed else Stopped;
    }

    /** The enqueue of the next item, which may raise before or after it took effect. */
    method EnqueueNext(d: nat, payload: Payload, outcome: Enqueue)
      requires Valid() && At(model, d, Advance) && model.deliveries[d].payload == payload && payload.rest != []
      modifies this`queue, this`model
      ensures Valid() && EndsAt(d, old(model), if outcome == Stored then Completed else Stopped, Ack)
      ensures queue == if outcome == Raised then old(queue) else old(queue) + [NextBody(payload)]
      ensures outcome == Stored ==> NextBody(payload) in queue
    {
      hide Reachable, NextBody;
      HandingOnMeansStarted(model, d);
      if outcome != Raised {
        queue := queue + [NextBody(payload)];
        assert queue[|queue| - 1] == NextBody(payload);
      }
      Follow(AdvanceChain(d, outcome));
    }

    /** `run_pipeline_push`. A 200 means that the run has left PENDING and that the rest of the batch
        is in the queue again; it is answered with `already_terminal` exactly if the run was successful or
        failed at the check, which saw the rows as in `seen`. Any other end leaves the task for the queue to
        retry. */
    method RunPipelinePush(d: nat, payload: Payload, setupOk: bool, succeeds: bool, outcome: Enqueue)
      returns (reply: Reply, ghost seen: State)
      requires Valid() && At(model, d, Check) && model.deliveries[d].payload == payload
      modifies this
      ensures Valid()
      ensures d < |model.deliveries| && (reply == Unanswered <==> model.deliveries[d].pc == Gone)
      ensures Evolves(old(model), seen) && (old(others) == [] ==> seen.runs == old(runs))
      ensures reply != Unanswered ==>
                && At(seen, d, Check)
                && var status := seen.runs[payload.item.run].status;
                   reply == if status == Success || status == Failed then AlreadyTerminal else Done
      ensures reply != Unanswered ==>
                && At(model, d, Ack)
                && payload.item.run < |runs| && runs[payload.item.run].status != Pending
                && (payload.rest != [] ==> NextBody(payload) in queue)
      ensures if payload.rest == [] || outcome == Stored
              then Spends(old(budget), budget, 8, if reply == Unanswered then Stopped else Completed)
              else reply == Unanswered
      ensures var row := old(runs)[payload.item.run];
              reply != Unanswered && old(others) == [] ==>
                runs == old(runs)[payload.item.run :=
                          if row.status == Success || row.status == Failed then row
                          else if !setupOk then Run(Failed, row.setupFailures + 1)
                          else if row.status == InProgress then row
                          else row.(status := if succeeds then Success else Failed)]
    {
      hide Apply, Enabled, Reachable, NextBody;
      var o := Await(d);
      seen := model;
      if o == Stopped { return Unanswered, seen; }
      var terminal := RunAlreadyTerminal(d, payload.item.run);
      if terminal {
        o := AdvanceBatchChain(d, payload, outcome);
        reply := if o == Stopped then Unanswered else AlreadyTerminal;
      } else {
        o := RunPipelineDispatch(d, payload, setupOk, succeeds);
        if o == Stopped { return Unanswered, seen; }
        o := AdvanceBatchChain(d, payload, outcome);
        reply := if o == Stopped then Unanswered else Done;
      }
      if reply != Unanswered { HandingOnMeansStarted(model, d); }
    }

    // ---------- upload.py and import_pending_files.py ----------

    /** A suspension point of the endpoint that created batch `b`. */
    method AwaitEndpoint(b: nat) returns (o: Outcome)
      requires Valid() && b < |model.batches|
      requires model.batches[b].endpoint.Committed? || model.batches[b].endpoint.Marking?
      modifies this
      ensures Valid() && Evolves(old(model), model)
      ensures model.batches[b] == old(model).batches[b].(endpoint :=
                if o == Completed then old(model).batches[b].endpoint else Dead)
      ensures o == Stopped <==> old(budget) == 0
      ensures budget == if o == Stopped then 0 else old(budget) - 1
    {
      if budget == 0 {
        ApplyEvolves(model, EndpointDies(b));
        Follow(EndpointDies(b));
        return Stopped;
      }
      budget := budget - 1;
      if others != [] {
        var a := others[0];
        others := others[1..];
        if Enabled(model, a) && !ActsFor(a, b) {
          OthersLeaveEndpointAlone(model, a, b);
          ActOthers(a);
        }
      }
      return Completed;
    }

    /** `schedule_batch`: builds every item, then enqueues the first one carrying the others. */
    method ScheduleBatch(b: nat, user: string, prompt: string, mode: string, first: nat,
                         files: seq<File>, outcome: Enqueue)
      returns (raised: bool)
      requires Valid() && files != [] && b < |model.batches|
      requires model.batches[b] ==
               Batch(user, prompt, first, mode, files, BatchItems(first, mode, files), Committed)
      modifies this`queue, this`model
      ensures Valid()
      ensures model == Apply(old(model), EnqueueFirst(b, outcome))
      ensures raised <==> outcome != Stored
      ensures model.batches == old(model).batches[b :=
                old(model).batches[b].(endpoint := if raised then Marking(0, None) else Accepted)]
      ensures !raised ==> queue == old(queue) + [queue[|old(queue)|]]
      ensures !raised ==> Parse(queue[|old(queue)|]) == PayloadFor(user, prompt, BatchItems(first, mode, files), 0)
      ensures !raised ==> CarriesFrom(Parse(queue[|old(queue)|]), user, prompt, first, mode, files, 0)
    {
      ReachableInv(model);
      var items: seq<Item> := [];
      for i := 0 to |files|
        invariant |items| == i
        invariant forall k :: 0 <= k < i ==> items[k] == ItemFor(first + k, mode, files[k])
      {
        var inline := if Inlines(mode) then Some(files[i].content) else None;
        items := items + [Item(first + i, files[i].id, files[i].name, mode, inline)];
      }
      assert items == BatchItems(first, mode, files);
      FirstBodyCarriesBatch(user, prompt, items);
      ItemsCarry(user, prompt, first, mode, files, 0);
      if outcome != Raised {
        queue := queue + [FirstBody(user, prompt, items)];
      }
      Follow(EnqueueFirst(b, outcome));
      return outcome != Stored;
    }

    /** `_fail_run_without_storage` for item `i` of batch `b`. */
    method MarkRunFailed(b: nat, i: nat, run: nat) returns (o: Outcome)
      requires Valid() && b < |model.batches| && model.batches[b].endpoint == Marking(i, None)
      requires i < |model.batches[b].items| && model.batches[b].items[i].run == run
      modifies this
      ensures Valid() && Evolves(old(model), model) && Spends(old(budget), budget, 2, o)
      ensures model.batches[b] == old(model).batches[b].(endpoint :=
                if o == Stopped then Dead
                else if i + 1 == |old(model).batches[b].items| then Rejected
                else Marking(i + 1, None))
      ensures o == Completed ==> NonPending(model, run)
    {
      var loaded;
      o, loaded := LoadRunToMark(b, i, run);
      if o == Stopped { return; }
      ghost var before := model;
      :- AwaitEndpoint(b);
      EvolvesTransitively(old(model), before, model);
      MarkLoadedRun(b, i, run, loaded);
      return Completed;
    }

    method LoadRunToMark(b: nat, i: nat, run: nat) returns (o: Outcome, loaded: RunStatus)
      requires Valid() && b < |model.batches| && model.batches[b].endpoint == Marking(i, None)
      requires i < |model.batches[b].items| && model.batches[b].items[i].run == run
      modifies this
      ensures Valid() && Evolves(old(model), model) && Spends(old(budget), budget, 1, o)
      ensures model.batches[b] == old(model).batches[b].(endpoint :=
                if o == Stopped then Dead else Marking(i, Some(loaded)))
    {
      loaded := Pending;
      o := AwaitEndpoint(b);
      if o == Stopped { return; }
      ghost var before := model;
      ReachableInv(model);
      assert BatchOk(model, b);
      loaded := runs[run].status;
      ApplyEvolves(model, LoadToMark(b));
      Follow(LoadToMark(b));
      EvolvesTransitively(old(model), before, model);
    }

    /** The commit of a mark. */
    method MarkLoadedRun(b: nat, i: nat, run: nat, loaded: RunStatus)
      requires Valid() && b < |model.batches| && model.batches[b].endpoint == Marking(i, Some(loaded))
      requires i < |model.batches[b].items| && model.batches[b].items[i].run == run
      modifies this`runs, this`model
      ensures Valid() && Evolves(old(model), model)
      ensures model.batches[b] == old(model).batches[b].(endpoint :=
                if i + 1 == |old(model).batches[b].items| then Rejected else Marking(i + 1, None))
      ensures NonPending(model, run)
      ensures run < |old(runs)| && runs == old(runs)[run := FailRow(old(runs)[run], loaded)]
    {
      ReachableInv(model);
      assert BatchOk(model, b) && EndpointOk(model, b);
      runs := runs[run := runs[run].(setupFailures := runs[run].setupFailures + 1)];
      if loaded != Failed {
        runs := runs[run := runs[run].(status := Failed)];
      }
      ApplyEvolves(model, MarkFailed(b));
      Follow(MarkFailed(b));
    }

    /** `mark_runs_failed_to_schedule`: on normal return every run of the batch has been marked. */
    method MarkRunsFailedToSchedule(b: nat, runIds: seq<nat>) returns (o: Outcome)
      requires Valid() && b < |model.batches| && model.batches[b].endpoint == Marking(0, None)
      requires |runIds| == |model.batches[b].items| > 0
      requires forall i :: 0 <= i < |runIds| ==> runIds[i] == model.batches[b].items[i].run
      modifies this
      ensures Valid() && b < |model.batches|
      ensures model.batches[b] == old(model).batches[b].(endpoint := if o == Completed then Rejected else Dead)
      ensures Spends(old(budget), budget, 2 * |runIds|, o)
      ensures o == Completed ==>
                forall i :: 0 <= i < |runIds| ==> runIds[i] < |runs| && runs[runIds[i]].status != Pending
    {
      for i := 0 to |runIds|
        invariant Valid() && b < |model.batches|
        invariant budget <= old(budget) <= budget + 2 * i
        invariant model.batches[b] == old(model).batches[b].(endpoint :=
                    if i == |runIds| then Rejected else Marking(i, None))
        invariant forall k :: 0 <= k < i ==> NonPending(model, runIds[k])
      {
        ghost var before := model;
        :- MarkRunFailed(b, i, runIds[i]);
        forall k | 0 <= k < i ensures NonPending(model, runIds[k]) { assert NonPending(before, runIds[k]); }
      }
      forall k | 0 <= k < |runIds| ensures runIds[k] < |runs| && runs[runIds[k]].status != Pending {
        assert NonPending(model, runIds[k]);
      }
      return Completed;
    }

    /** Commits one PENDING row per file. */
    method CreateRuns(user: string, prompt: string, mode: string, files: seq<File>) returns (b: nat)
      requires Valid() && files != []
      modifies this`runs, this`model
      ensures Valid() && b == |old(model).batches| && |model.batches| == b + 1
      ensures runs == old(runs) + seq(|files|, _ => Run(Pending, 0))
      ensures model.batches[b] == Batch(user, prompt, |old(runs)|, mode, files,
                                        BatchItems(|old(runs)|, mode, files), Committed)
    {
      b := |model.batches|;
      runs := runs + seq(|files|, _ => Run(Pending, 0));
      Follow(CreateBatch(user, prompt, mode, files));
    }

    /** `import_pending_files` from the point where the pending files are known. The answer 202 names
        the first run of an accepted batch; `dispatch_error` is answered only once no run of the batch
        is PENDING. */
    method ImportPendingFiles(user: string, prompt: string, mode: string, files: seq<File>, outcome: Enqueue)
      returns (reply: ImportReply, b: nat)
      requires Valid() && files != []
      modifies this
      ensures Valid()
      ensures b == |old(model).batches| < |model.batches|
      ensures |model.batches[b].items| == |files|
      ensures forall i {:trigger files[i]} :: 0 <= i < |files| ==>
                Carries(model.batches[b].items[i], model.batches[b].first + i, mode, files[i])
      ensures reply.RunId? ==>
                exists t :: 0 <= t < |queue|
                            && CarriesFrom(Parse(queue[t]), user, prompt, model.batches[b].first, mode, files, 0)
      ensures model.batches[b].user == user && model.batches[b].prompt == prompt
      ensures model.batches[b].mode == mode && model.batches[b].files == files
      ensures match reply
              case RunId(run) => model.batches[b].endpoint == Accepted && run == model.batches[b].items[0].run
              case DispatchError => model.batches[b].endpoint == Rejected &&
                forall i :: 0 <= i < |files| ==>
                  && model.batches[b].items[i].run < |runs|
                  && runs[model.batches[b].items[i].run].status != Pending
              case Lost => model.batches[b].endpoint == Dead
      ensures Spends(old(budget), budget, 1 + 2 * |files|, if reply == Lost then Stopped else Completed)
      ensures reply != Lost ==> (reply.RunId? <==> outcome == Stored)
    {
      hide Apply, Enabled, Reachable, CarriesFrom;
      var first := |runs|;
      b := CreateRuns(user, prompt, mode, files);
      var o := AwaitEndpoint(b);
      if o == Stopped { return Lost, b; }
      var raised := ScheduleBatch(b, user, prompt, mode, first, files, outcome);
      if !raised { return RunId(first), b; }
      o := MarkRunsFailedToSchedule(b, seq(|files|, i requires 0 <= i < |files| => first + i));
      return if o == Stopped then Lost else DispatchError, b;
    }
  }
}
