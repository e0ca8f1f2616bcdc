/** The run dispatch protocol as a transition system: run rows, the task queue, the endpoints that
    create batches, and any number of deliveries, each at a program point of the push handler.

    The queue is at-least-once and unordered: any task ever enqueued, acknowledged or not, may be
    delivered again at any time, deliveries run concurrently, and any of them may stop at any point
    (killed, or by an exception). Every action is one atomic database or queue operation. */
module Dispatch {
  import opened Wrappers
  import opened Payloads

  datatype RunStatus = Pending | InProgress | Success | Failed

  predicate Terminal(status: RunStatus) {
    status == Success || status == Failed
  }

  /** A run row. `setupFailures` counts the failed "File Received" rows that the path without storage
      has added to it. */
  datatype Run = Run(status: RunStatus, setupFailures: nat)

  /** The endpoint that created a batch: rows committed, marking rows FAILED after a failed
      enqueue (the first `marked` are done, and the status of the next may have been loaded), returned
      202, returned `dispatch_error`, or died. */
  datatype Endpoint = Committed | Marking(marked: nat, seen: Option<RunStatus>) | Accepted | Rejected | Dead

  /** `mode` and `files` are history: no action reads them. */
  datatype Batch = Batch(
    user: string, prompt: string, first: nat, mode: string, files: seq<File>, items: seq<Item>, endpoint: Endpoint)

  datatype TaskState = Queued | Acked | Dropped

  /** Who enqueued a task. */
  datatype Origin = FromEndpoint | FromDelivery(delivery: nat)

  /** A task. `batch`, `index` and `origin` are history: no action reads them to decide anything. */
  datatype Task = Task(body: Body, state: TaskState, batch: nat, index: nat, origin: Origin)

  /** Where a delivery stands in `run_pipeline_push` and the functions it awaits. */
  datatype Pc =
    | Check            // about to test for a terminal status
    | SetUp            // about to rebuild the storage provider
    | SetupFailed      // about to load the run, to mark it FAILED without storage
    | Failing(loaded: RunStatus) // about to commit that mark
    | Claim            // about to run the claiming UPDATE
    | Load             // claimed: about to read the row back
    | Begin(loaded: RunStatus) // about to commit the start of the pipeline
    | Work             // running the seven steps
    | Move             // terminal status committed: about to move the file
    | Advance          // about to enqueue the next item
    | Ack              // about to answer 200
    | Gone             // answered, raised or killed

  datatype Delivery = Delivery(task: nat, payload: Payload, pc: Pc) {
    function Run(): nat { payload.item.run }
  }

  /** `claims` lists the deliveries whose claim succeeded, in order. */
  datatype State = State(
    runs: seq<Run>,
    batches: seq<Batch>,
    tasks: seq<Task>,
    deliveries: seq<Delivery>,
    claims: seq<nat>)

  /** An enqueue call may fail before or after the queue stored the task. */
  datatype Enqueue = Stored | StoredThenRaised | Raised

  datatype Action =
    | CreateBatch(user: string, prompt: string, mode: string, files: seq<File>)
    | EnqueueFirst(batch: nat, outcome: Enqueue)
    | LoadToMark(batch: nat)
    | MarkFailed(batch: nat)
    | EndpointDies(batch: nat)
    | Deliver(task: nat)
    | DropTask(task: nat)
    | CheckTerminal(delivery: nat)
    | SetUpStorage(delivery: nat, ok: bool)
    | LoadToFail(delivery: nat)
    | FailWithoutStorage(delivery: nat)
    | ClaimRun(delivery: nat)
    | LoadRun(delivery: nat)
    | BeginPipeline(delivery: nat)
    | FinishPipeline(delivery: nat, ok: bool)
    | MoveFile(delivery: nat)
    | AdvanceChain(delivery: nat, outcome: Enqueue)
    | Acknowledge(delivery: nat)
    | Kill(delivery: nat)

  // ---------- Row operations ----------

  /** The commit of `_fail_run_without_storage`: FAILED whatever the status is by now, except that a
      session that loaded FAILED has nothing to write. */
  function FailRow(run: Run, loaded: RunStatus): Run {
    Run(if loaded == Failed then run.status else Failed, run.setupFailures + 1)
  }

  /** `_claim_run`: the compare-and-swap changes a row exactly when it is PENDING. */
  function ClaimRow(run: Run): Run {
    if run.status == Pending then run.(status := InProgress) else run
  }

  /** The first commit of the pipeline: the session writes the status only if it differs from the
      status it loaded. */
  function BeginRow(run: Run, loaded: RunStatus): Run {
    if loaded == InProgress then run else run.(status := InProgress)
  }

  function FinishRow(run: Run, ok: bool): Run {
    run.(status := if ok then Success else Failed)
  }

  /** What one action does to one run row. */
  datatype RowWrite = Untouched | Fails(loaded: RunStatus) | Claims | Begins(loaded: RunStatus) | Finishes(ok: bool)

  function Written(run: Run, w: RowWrite): Run {
    match w
    case Untouched => run
    case Fails(loaded) => FailRow(run, loaded)
    case Claims => ClaimRow(run)
    case Begins(loaded) => BeginRow(run, loaded)
    case Finishes(ok) => FinishRow(run, ok)
  }

  // ---------- Actions ----------

  predicate At(s: State, d: nat, pc: Pc) {
    d < |s.deliveries| && s.deliveries[d].pc == pc && s.deliveries[d].Run() < |s.runs|
  }

  predicate IsMarking(s: State, b: nat) {
    && b < |s.batches|
    && s.batches[b].endpoint.Marking?
    && s.batches[b].endpoint.marked < |s.batches[b].items|
    && s.batches[b].items[s.batches[b].endpoint.marked].run < |s.runs|
  }

  predicate Enabled(s: State, a: Action) {
    match a
    case CreateBatch(_, _, _, files) => files != []
    case EnqueueFirst(b, _) => b < |s.batches| && s.batches[b].endpoint == Committed && s.batches[b].items != []
    case LoadToMark(b) => IsMarking(s, b) && s.batches[b].endpoint.seen == None
    case MarkFailed(b) => IsMarking(s, b) && s.batches[b].endpoint.seen.Some?
    case EndpointDies(b) => b < |s.batches| && (s.batches[b].endpoint.Committed? || s.batches[b].endpoint.Marking?)
    case Deliver(t) => t < |s.tasks|
    case DropTask(t) => t < |s.tasks| && s.tasks[t].state == Queued
    case CheckTerminal(d) => At(s, d, Check)
    case SetUpStorage(d, _) => At(s, d, SetUp)
    case LoadToFail(d) => At(s, d, SetupFailed)
    case FailWithoutStorage(d) => d < |s.deliveries| && s.deliveries[d].pc.Failing? && s.deliveries[d].Run() < |s.runs|
    case ClaimRun(d) => At(s, d, Claim)
    case LoadRun(d) => At(s, d, Load)
    case BeginPipeline(d) => d < |s.deliveries| && s.deliveries[d].pc.Begin? && s.deliveries[d].Run() < |s.runs|
    case FinishPipeline(d, _) => At(s, d, Work)
    case MoveFile(d) => At(s, d, Move)
    case AdvanceChain(d, _) => At(s, d, Advance) && s.deliveries[d].task < |s.tasks|
    case Acknowledge(d) => At(s, d, Ack) && s.deliveries[d].task < |s.tasks|
    case Kill(d) => d < |s.deliveries| && s.deliveries[d].pc != Gone
  }

  function GoTo(s: State, d: nat, pc: Pc): State
    requires d < |s.deliveries|
  {
    s.(deliveries := s.deliveries[d := s.deliveries[d].(pc := pc)])
  }

  function WriteRun(s: State, r: nat, run: Run): State
    requires r < |s.runs|
  {
    s.(runs := s.runs[r := run])
  }

  function SetEndpoint(s: State, b: nat, endpoint: Endpoint): State
    requires b < |s.batches|
  {
    s.(batches := s.batches[b := s.batches[b].(endpoint := endpoint)])
  }

  function EnqueueTask(s: State, task: Task, outcome: Enqueue): State {
    if outcome == Raised then s else s.(tasks := s.tasks + [task])
  }

  function Apply(s: State, a: Action): State
    requires Enabled(s, a)
  {
    match a
    case CreateBatch(user, prompt, mode, files) =>
      var first := |s.runs|;
      s.(runs := s.runs + seq(|files|, _ => Run(Pending, 0)),
         batches := s.batches + [Batch(user, prompt, first, mode, files, BatchItems(first, mode, files), Committed)])
    case EnqueueFirst(b, outcome) =>
      var batch := s.batches[b];
      var task := Task(FirstBody(batch.user, batch.prompt, batch.items), Queued, b, 0, FromEndpoint);
      SetEndpoint(EnqueueTask(s, task, outcome), b, if outcome == Stored then Accepted else Marking(0, None))
    case LoadToMark(b) =>
      var k := s.batches[b].endpoint.marked;
      SetEndpoint(s, b, Marking(k, Some(s.runs[s.batches[b].items[k].run].status)))
    case MarkFailed(b) =>
      var k := s.batches[b].endpoint.marked;
      var r := s.batches[b].items[k].run;
      SetEndpoint(WriteRun(s, r, FailRow(s.runs[r], s.batches[b].endpoint.seen.value)), b,
                  if k + 1 == |s.batches[b].items| then Rejected else Marking(k + 1, None))
    case EndpointDies(b) => SetEndpoint(s, b, Dead)
    case Deliver(t) => s.(deliveries := s.deliveries + [Delivery(t, Parse(s.tasks[t].body), Check)])
    case DropTask(t) => s.(tasks := s.tasks[t := s.tasks[t].(state := Dropped)])
    case CheckTerminal(d) =>
      GoTo(s, d, if Terminal(s.runs[s.deliveries[d].Run()].status) then Advance else SetUp)
    case SetUpStorage(d, ok) => GoTo(s, d, if ok then Claim else SetupFailed)
    case LoadToFail(d) => GoTo(s, d, Failing(s.runs[s.deliveries[d].Run()].status))
    case FailWithoutStorage(d) =>
      var r := s.deliveries[d].Run();
      GoTo(WriteRun(s, r, FailRow(s.runs[r], s.deliveries[d].pc.loaded)), d, Advance)
    case ClaimRun(d) =>
      var r := s.deliveries[d].Run();
      if s.runs[r].status == Pending then
        GoTo(WriteRun(s, r, ClaimRow(s.runs[r])), d, Load).(claims := s.claims + [d])
      else
        GoTo(s, d, Advance)
    case LoadRun(d) => GoTo(s, d, Begin(s.runs[s.deliveries[d].Run()].status))
    case BeginPipeline(d) =>
      var r := s.deliveries[d].Run();
      GoTo(WriteRun(s, r, BeginRow(s.runs[r], s.deliveries[d].pc.loaded)), d, Work)
    case FinishPipeline(d, ok) =>
      var r := s.deliveries[d].Run();
      GoTo(WriteRun(s, r, FinishRow(s.runs[r], ok)), d, Move)
    case MoveFile(d) => GoTo(s, d, Advance)
    case AdvanceChain(d, outcome) =>
      var delivery := s.deliveries[d];
      if delivery.payload.rest == [] then GoTo(s, d, Ack)
      else
        var from := s.tasks[delivery.task];
        var task := Task(NextBody(delivery.payload), Queued, from.batch, from.index + 1, FromDelivery(d));
        GoTo(EnqueueTask(s, task, outcome), d, if outcome == Stored then Ack else Gone)
    case Acknowledge(d) =>
      var t := s.deliveries[d].task;
      GoTo(s, d, Gone).(tasks := s.tasks[t := s.tasks[t].(state := Acked)])
    case Kill(d) => GoTo(s, d, Gone)
  }

  /** The write of an action to row `r`. */
  function WriteTo(s: State, a: Action, r: nat): RowWrite
    requires Enabled(s, a)
  {
    match a
    case MarkFailed(b) =>
      var batch := s.batches[b];
      if batch.items[batch.endpoint.marked].run == r then Fails(batch.endpoint.seen.value) else Untouched
    case FailWithoutStorage(d) =>
      if s.deliveries[d].Run() == r then Fails(s.deliveries[d].pc.loaded) else Untouched
    case ClaimRun(d) => if s.deliveries[d].Run() == r then Claims else Untouched
    case BeginPipeline(d) => if s.deliveries[d].Run() == r then Begins(s.deliveries[d].pc.loaded) else Untouched
    case FinishPipeline(d, ok) => if s.deliveries[d].Run() == r then Finishes(ok) else Untouched
    case _ => Untouched
  }

  const INITIAL: State := State([], [], [], [], [])

  /** `actions` is a behaviour from `s`: each action is enabled when it is taken. */
  predicate Possible(s: State, actions: seq<Action>)
    decreases |actions|
  {
    actions == [] || (Enabled(s, actions[0]) && Possible(Apply(s, actions[0]), actions[1..]))
  }

  function After(s: State, actions: seq<Action>): State
    requires Possible(s, actions)
    decreases |actions|
  {
    if actions == [] then s else After(Apply(s, actions[0]), actions[1..])
  }

  ghost predicate Reachable(s: State) {
    exists actions :: Possible(INITIAL, actions) && After(INITIAL, actions) == s
  }
}
