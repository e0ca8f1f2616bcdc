/** The progress stream: a poller that reports changes, as code over a sequence of polls, and what a
    browser can be told about the one execution that drives a run. */
module Progress {
  import opened Wrappers
  import opened Dispatch
  import opened RunViews

  /** What one turn of the loop reads: the step rows first, then the run's status (none if the row
      is gone). */
  datatype Poll = Poll(rows: seq<StepRow>, status: Option<RunStatus>)

  datatype StepView = StepView(number: nat, name: string, status: StepStatus)

  datatype SseEvent =
    | StepEvent(view: StepView)
    | RunStatusEvent(status: RunStatus)
    | DoneEvent(status: RunStatus)

  // ---------- What a poll shows ----------

  /** `load_step_statuses`: a dictionary from the rows, the last row of a number winning. */
  function LoadStepStatuses(rows: seq<StepRow>): map<nat, StepStatus> {
    if rows == [] then map[]
    else LoadStepStatuses(rows[..|rows| - 1])[rows[|rows| - 1].number := rows[|rows| - 1].status]
  }

  lemma {:induction false} LoadedStatusIsStepOf(rows: seq<StepRow>, n: nat)
    ensures StepOf(rows, n) == if n in LoadStepStatuses(rows) then LoadStepStatuses(rows)[n] else Waiting
  {
    if rows != [] {
      LoadedStatusIsStepOf(rows[..|rows| - 1], n);
    }
  }

  lemma LoadOneMore(rows: seq<StepRow>, row: StepRow)
    ensures LoadStepStatuses(rows + [row]) == LoadStepStatuses(rows)[row.number := row.status]
  {
    assert (rows + [row])[..|rows|] == rows;
  }

  /** The last row with a number gives the status recorded for it; a number without rows has none. */
  lemma {:induction false} LastRowCounts(rows: seq<StepRow>, n: nat)
    ensures n in LoadStepStatuses(rows) <==> exists i :: 0 <= i < |rows| && rows[i].number == n
    ensures forall i :: 0 <= i < |rows| && rows[i].number == n && (forall j :: i < j < |rows| ==> rows[j].number != n)
              ==> n in LoadStepStatuses(rows) && LoadStepStatuses(rows)[n] == rows[i].status
  {
    if rows != [] {
      var init, row := rows[..|rows| - 1], rows[|rows| - 1];
      LastRowCounts(init, n);
      assert rows == init + [row];
      LoadOneMore(init, row);
      hide LoadStepStatuses;
      if i :| 0 <= i < |init| && init[i].number == n { assert rows[i].number == n; }
      if row.number == n { assert rows[|init|].number == n; }
    }
  }

  /** `build_step_views`: all seven steps in order, pending where no row exists yet. */
  method BuildStepViews(statusByNumber: map<nat, StepStatus>) returns (views: seq<StepView>)
    ensures |views| == 7
    ensures forall i :: 0 <= i < 7 ==>
              views[i] == StepView(i + 1, STEP_NAMES[i],
                                   if i + 1 in statusByNumber then statusByNumber[i + 1] else Waiting)
    ensures views[0].name == "File Received" && views[1].name == "Extract" && views[2].name == "Filter by Date"
    ensures views[3].name == "Call Gemini LLM" && views[4].name == "Parse LLM Response"
    ensures views[5].name == "Deduplicate & Save" && views[6].name == "Notify"
  {
    views := [];
    for i := 0 to |STEP_NAMES|
      invariant |views| == i
      invariant forall k :: 0 <= k < i ==>
                  views[k] == StepView(k + 1, STEP_NAMES[k],
                                       if k + 1 in statusByNumber then statusByNumber[k + 1] else Waiting)
    {
      var status := if i + 1 in statusByNumber then statusByNumber[i + 1] else Waiting;
      views := views + [StepView(i + 1, STEP_NAMES[i], status)];
    }
  }

  function ShownStatus(poll: Poll): RunStatus {
    if poll.status.Some? then poll.status.value else Pending
  }

  // ---------- Projections of a stream ----------

  /** A sequence without its consecutive repeats. */
  function Changes<T(==)>(s: seq<T>): seq<T> {
    if |s| <= 1 then s
    else if s[|s| - 1] == s[|s| - 2] then Changes(s[..|s| - 1])
    else Changes(s[..|s| - 1]) + [s[|s| - 1]]
  }

  function StepEvents(events: seq<SseEvent>, n: nat): seq<StepStatus> {
    if events == [] then []
    else
      var last := events[|events| - 1];
      StepEvents(events[..|events| - 1], n)
      + if last.StepEvent? && last.view.number == n then [last.view.status] else []
  }

  function RunStatusEvents(events: seq<SseEvent>): seq<RunStatus> {
    if events == [] then []
    else
      var last := events[|events| - 1];
      RunStatusEvents(events[..|events| - 1]) + if last.RunStatusEvent? then [last.status] else []
  }

  /** The statuses that the first `k` polls show for step `n`. */
  function PolledStep(polls: nat -> Poll, k: nat, n: nat): (s: seq<StepStatus>)
    ensures |s| == k
  {
    seq(k, i requires 0 <= i < k => StepOf(polls(i).rows, n))
  }

  function PolledRun(polls: nat -> Poll, k: nat): (s: seq<RunStatus>)
    ensures |s| == k
  {
    seq(k, i requires 0 <= i < k => ShownStatus(polls(i)))
  }

  lemma OneMoreEvent(events: seq<SseEvent>, e: SseEvent, n: nat)
    ensures StepEvents(events + [e], n) ==
            StepEvents(events, n) + if e.StepEvent? && e.view.number == n then [e.view.status] else []
    ensures RunStatusEvents(events + [e]) == RunStatusEvents(events) + if e.RunStatusEvent? then [e.status] else []
  {
    assert (events + [e])[..|events|] == events;
  }

  lemma OneMorePoll(polls: nat -> Poll, k: nat, n: nat)
    ensures Changes(PolledStep(polls, k + 1, n)) ==
            var now := StepOf(polls(k).rows, n);
            Changes(PolledStep(polls, k, n)) + if k > 0 && StepOf(polls(k - 1).rows, n) == now then [] else [now]
    ensures Changes(PolledRun(polls, k + 1)) ==
            var now := ShownStatus(polls(k));
            Changes(PolledRun(polls, k)) + if k > 0 && ShownStatus(polls(k - 1)) == now then [] else [now]
  {
    assert PolledStep(polls, k + 1, n)[..k] == PolledStep(polls, k, n);
    assert PolledRun(polls, k + 1)[..k] == PolledRun(polls, k);
  }

  // ---------- The stream ----------

  /** What poll `k` tells of steps 1 to `i`: in order, those whose status the poll before did not show. */
  ghost function StepsTold(polls: nat -> Poll, k: nat, i: nat): seq<SseEvent>
    requires i <= 7
  {
    if i == 0 then []
    else
      var now := StepOf(polls(k).rows, i);
      StepsTold(polls, k, i - 1)
      + if k > 0 && StepOf(polls(k - 1).rows, i) == now then [] else [StepEvent(StepView(i, STEP_NAMES[i - 1], now))]
  }

  /** What poll `k` tells: the steps, and then the run's status if the poll before did not show it. */
  ghost function PollTold(polls: nat -> Poll, k: nat): seq<SseEvent> {
    var now := if polls(k).status.Some? then polls(k).status.value else Pending;
    StepsTold(polls, k, 7) + if k > 0 && ShownStatus(polls(k - 1)) == now then [] else [RunStatusEvent(now)]
  }

  /** What the first `k` polls tell, one after the other. */
  ghost function Told(polls: nat -> Poll, k: nat): seq<SseEvent> {
    if k == 0 then [] else Told(polls, k - 1) + PollTold(polls, k - 1)
  }

  /** The events tell exactly the statuses of the first `k` polls, without consecutive repeats. */
  ghost predicate Replica(polls: nat -> Poll, k: nat, events: seq<SseEvent>) {
    && (forall n: nat {:trigger StepEvents(events, n)} :: 1 <= n <= 7 ==>
          StepEvents(events, n) == Changes(PolledStep(polls, k, n)))
    && RunStatusEvents(events) == Changes(PolledRun(polls, k))
  }

  /** Everything emitted by the polls before the `k`-th, and what the loop remembers of them. */
  ghost predicate Reported(polls: nat -> Poll, k: nat, events: seq<SseEvent>,
                           lastStep: map<nat, StepStatus>, lastRun: Option<RunStatus>)
  {
    && Replica(polls, k, events)
    && (forall i {:trigger events[i]} :: 0 <= i < |events| ==> !events[i].DoneEvent?)
    && (forall n: nat {:trigger n in lastStep} :: 1 <= n <= 7 ==>
          (n in lastStep <==> k > 0) && (k > 0 ==> lastStep[n] == StepOf(polls(k - 1).rows, n)))
    && lastRun == (if k > 0 then Some(ShownStatus(polls(k - 1))) else None)
    && (k > 0 ==> events != [])
  }

  /** Steps 1..i have been reported up to poll `k`, the others up to the poll before. */
  ghost predicate PartlyReported(polls: nat -> Poll, k: nat, i: nat, events: seq<SseEvent>) {
    && (forall n: nat {:trigger StepEvents(events, n)} :: 1 <= n <= i ==>
          StepEvents(events, n) == Changes(PolledStep(polls, k + 1, n)))
    && (forall n: nat {:trigger StepEvents(events, n)} :: i < n <= 7 ==>
          StepEvents(events, n) == Changes(PolledStep(polls, k, n)))
    && (forall i {:trigger events[i]} :: 0 <= i < |events| ==> !events[i].DoneEvent?)
  }

  ghost predicate PartlyRemembered(polls: nat -> Poll, k: nat, i: nat, lastStep: map<nat, StepStatus>) {
    && (forall n: nat {:trigger n in lastStep} :: 1 <= n <= i ==>
          n in lastStep && lastStep[n] == StepOf(polls(k).rows, n))
    && (forall n: nat {:trigger n in lastStep} :: i < n <= 7 ==>
          (n in lastStep <==> k > 0) && (k > 0 ==> lastStep[n] == StepOf(polls(k - 1).rows, n)))
  }

  /** Step `n` after step `i + 1` has been reported as changed. */
  lemma StepReportedAt(polls: nat -> Poll, k: nat, i: nat, events: seq<SseEvent>, view: StepView, n: nat)
    requires PartlyReported(polls, k, i, events) && i < 7 && 1 <= n <= 7
    requires view.number == i + 1 && view.status == StepOf(polls(k).rows, i + 1)
    requires k == 0 || StepOf(polls(k - 1).rows, i + 1) != view.status
    ensures StepEvents(events + [StepEvent(view)], n) ==
            Changes(PolledStep(polls, if n <= i + 1 then k + 1 else k, n))
  {
    OneMoreEvent(events, StepEvent(view), n);
    if n == i + 1 { OneMorePoll(polls, k, n); }
  }

  /** Reporting a step whose status differs from the last poll's. */
  lemma StepReported(polls: nat -> Poll, k: nat, i: nat, events: seq<SseEvent>, view: StepView)
    requires PartlyReported(polls, k, i, events) && i < 7
    requires view.number == i + 1 && view.status == StepOf(polls(k).rows, i + 1)
    requires k == 0 || StepOf(polls(k - 1).rows, i + 1) != view.status
    ensures PartlyReported(polls, k, i + 1, events + [StepEvent(view)])
  {
    forall n: nat | 1 <= n <= 7
      ensures StepEvents(events + [StepEvent(view)], n) ==
              Changes(PolledStep(polls, if n <= i + 1 then k + 1 else k, n))
    {
      StepReportedAt(polls, k, i, events, view, n);
    }
  }

  /** A step whose status is the last poll's needs no event. */
  lemma StepUnchanged(polls: nat -> Poll, k: nat, i: nat, events: seq<SseEvent>)
    requires PartlyReported(polls, k, i, events) && i < 7
    requires k > 0 && StepOf(polls(k - 1).rows, i + 1) == StepOf(polls(k).rows, i + 1)
    ensures PartlyReported(polls, k, i + 1, events)
  {
    hide StepEvents, Changes, PolledStep, StepOf, RunStatusEvents, PolledRun;
    OneMorePoll(polls, k, i + 1);
  }

  lemma StepRemembered(polls: nat -> Poll, k: nat, i: nat, lastStep: map<nat, StepStatus>)
    requires PartlyRemembered(polls, k, i, lastStep) && i < 7
    ensures PartlyRemembered(polls, k, i + 1, lastStep[i + 1 := StepOf(polls(k).rows, i + 1)])
  {
    var more := lastStep[i + 1 := StepOf(polls(k).rows, i + 1)];
    forall n: nat | 1 <= n <= i + 1 ensures n in more && more[n] == StepOf(polls(k).rows, n) {
      if n <= i { assert n in lastStep; }
    }
    forall n: nat | i + 1 < n <= 7
      ensures (n in more <==> k > 0) && (k > 0 ==> more[n] == StepOf(polls(k - 1).rows, n))
    {
      assert n in lastStep <==> k > 0;
    }
  }

  method AppendRunStatus(ghost polls: nat -> Poll, ghost k: nat, before: seq<SseEvent>, status: RunStatus)
    returns (events: seq<SseEvent>)
    requires PartlyReported(polls, k, 7, before)
    ensures events == before + [RunStatusEvent(status)]
    ensures PartlyReported(polls, k, 7, events)
    ensures RunStatusEvents(events) == RunStatusEvents(before) + [status]
  {
    events := before + [RunStatusEvent(status)];
    forall n: nat ensures StepEvents(events, n) == StepEvents(before, n)
    {
      OneMoreEvent(before, RunStatusEvent(status), n);
    }
    OneMoreEvent(before, RunStatusEvent(status), 1);
  }

  /** The loop over the seven views of one poll. */
  method EmitSteps(ghost polls: nat -> Poll, ghost k: nat, rows: seq<StepRow>, before: seq<SseEvent>,
                   last: map<nat, StepStatus>)
    returns (events: seq<SseEvent>, lastStep: map<nat, StepStatus>)
    requires PartlyReported(polls, k, 0, before) && PartlyRemembered(polls, k, 0, last)
    requires rows == polls(k).rows
    ensures before <= events && RunStatusEvents(events) == RunStatusEvents(before)
    ensures events == before + StepsTold(polls, k, 7)
    ensures PartlyReported(polls, k, 7, events) && PartlyRemembered(polls, k, 7, lastStep)
  {
    hide PartlyReported, StepEvents, RunStatusEvents, Changes, PolledStep, StepOf;
    var views := BuildStepViews(LoadStepStatuses(rows));
    events, lastStep := before, last;
    for i := 0 to 7
      invariant before <= events && RunStatusEvents(events) == RunStatusEvents(before)
      invariant events == before + StepsTold(polls, k, i)
      invariant PartlyReported(polls, k, i, events) && PartlyRemembered(polls, k, i, lastStep)
    {
      var view := views[i];
      LoadedStatusIsStepOf(rows, i + 1);
      var changed := !(view.number in lastStep && lastStep[view.number] == view.status);
      StepRemembered(polls, k, i, lastStep);
      if changed {
        StepReported(polls, k, i, events, view);
        OneMoreEvent(events, StepEvent(view), i + 1);
        lastStep := lastStep[view.number := view.status];
        events := events + [StepEvent(view)];
      } else {
        StepUnchanged(polls, k, i, events);
        assert lastStep == lastStep[view.number := view.status];
      }
    }
  }

  /** ceil(maxSeconds / interval) + 1, and at least one. */
  function PollLimit(maxSeconds: real, interval: real): (n: nat)
    requires interval > 0.0
    ensures n >= 1
  {
    var ceiling := -(-(maxSeconds / interval)).Floor;
    if ceiling < 0 then 1 else ceiling + 1
  }

  /** The time that `k` sleeps take. */
  function Slept(k: nat, interval: real): real {
    if k == 0 then 0.0 else Slept(k - 1, interval) + interval
  }

  lemma OneMoreSleep(k: nat, interval: real)
    ensures Slept(0, interval) == 0.0 && Slept(k + 1, interval) == Slept(k, interval) + interval
  {
  }

  lemma {:induction false} SleptIs(k: nat, interval: real)
    ensures Slept(k, interval) == k as real * interval
  {
    if k > 0 {
      SleptIs(k - 1, interval);
      assert (k - 1) as real * interval + interval == k as real * interval;
    }
  }

  /** While time is left after `k` polls, the limit has not been reached. */
  lemma TimeLeftMeansPollsLeft(maxSeconds: real, interval: real, k: nat)
    requires interval > 0.0 && k > 0 && Slept(k - 1, interval) < maxSeconds
    ensures k < PollLimit(maxSeconds, interval)
  {
    SleptIs(k - 1, interval);
    var q := maxSeconds / interval;
    assert q * interval == maxSeconds;
    LessByFactor((k - 1) as real, q, interval);
  }

  lemma LessByFactor(a: real, b: real, factor: real)
    requires factor > 0.0 && a * factor < b * factor
    ensures a < b
  {
  }

  lemma NothingReportedYet(polls: nat -> Poll, k: nat, events: seq<SseEvent>,
                           lastStep: map<nat, StepStatus>, lastRun: Option<RunStatus>)
    requires Reported(polls, k, events, lastStep, lastRun)
    ensures PartlyReported(polls, k, 0, events) && PartlyRemembered(polls, k, 0, lastStep)
    ensures RunStatusEvents(events) == Changes(PolledRun(polls, k))
    ensures lastRun == (if k > 0 then Some(ShownStatus(polls(k - 1))) else None) && (k > 0 ==> events != [])
  {
  }

  lemma AllReported(polls: nat -> Poll, k: nat, events: seq<SseEvent>, lastStep: map<nat, StepStatus>)
    requires PartlyReported(polls, k, 7, events) && PartlyRemembered(polls, k, 7, lastStep)
    requires RunStatusEvents(events) == Changes(PolledRun(polls, k + 1)) && events != []
    ensures Reported(polls, k + 1, events, lastStep, Some(ShownStatus(polls(k))))
  {
  }

  /** One turn of the loop: the steps that changed, then the run's status if it changed. */
  method ReportPoll(ghost polls: nat -> Poll, ghost k: nat, poll: Poll, before: seq<SseEvent>,
                    last: map<nat, StepStatus>, lastRun: Option<RunStatus>)
    returns (events: seq<SseEvent>, lastStep: map<nat, StepStatus>, lastRun': Option<RunStatus>)
    requires Reported(polls, k, before, last, lastRun) && poll == polls(k)
    ensures Reported(polls, k + 1, events, lastStep, lastRun')
    ensures lastRun' == Some(ShownStatus(poll))
    ensures events == before + PollTold(polls, k)
  {
    hide Reported, PartlyReported, PartlyRemembered, RunStatusEvents, Changes, PolledRun, StepOf, StepsTold;
    NothingReportedYet(polls, k, before, last, lastRun);
    events, lastStep := EmitSteps(polls, k, poll.rows, before, last);
    OneMorePoll(polls, k, 1);
    lastRun' := Some(ShownStatus(poll));
    if lastRun != lastRun' {
      events := AppendRunStatus(polls, k, events, ShownStatus(poll));
    }
    AllReported(polls, k, events, lastStep);
  }

  /** The stream's end: one `done` after everything else. */
  method AppendDone(ghost polls: nat -> Poll, ghost k: nat, before: seq<SseEvent>, status: RunStatus)
    returns (events: seq<SseEvent>)
    requires Replica(polls, k, before) && forall i {:trigger before[i]} :: 0 <= i < |before| ==> !before[i].DoneEvent?
    ensures events == before + [DoneEvent(status)] && Replica(polls, k, events)
    ensures forall i {:trigger events[i]} :: 0 <= i < |events| && events[i].DoneEvent? ==> i == |events| - 1
  {
    events := before + [DoneEvent(status)];
    OneMoreEvent(before, DoneEvent(status), 1);
    forall n: nat ensures StepEvents(events, n) == StepEvents(before, n) {
      OneMoreEvent(before, DoneEvent(status), n);
    }
  }

  /** A whole stream over the first `k` polls: for each step it carries exactly the polled statuses without
      consecutive repeats, and likewise for the run's status, poll by poll, the steps in order before the run;
      `done` comes at most once, last, and exactly when the last poll shows a terminal status, which no poll
      before it did. */
  ghost predicate IsStream(polls: nat -> Poll, k: nat, events: seq<SseEvent>) {
    && k > 0 && events != [] && Replica(polls, k, events)
    && (var status := if polls(k - 1).status.Some? then polls(k - 1).status.value else Pending;
        events == Told(polls, k) + if status == Success || status == Failed then [DoneEvent(status)] else [])
    && (forall i :: 0 <= i < k - 1 ==> !Terminal(ShownStatus(polls(i))))
    && (forall i :: 0 <= i < |events| && events[i].DoneEvent? ==> i == |events| - 1)
    && var status := ShownStatus(polls(k - 1));
       if Terminal(status) then events[|events| - 1] == DoneEvent(status) else !events[|events| - 1].DoneEvent?
  }

  /** Before poll `k`, while no terminal status has been polled: what was sent, and what is remembered of it. */
  ghost predicate Ongoing(polls: nat -> Poll, k: nat, events: seq<SseEvent>,
                          lastStep: map<nat, StepStatus>, lastRun: Option<RunStatus>)
  {
    && Reported(polls, k, events, lastStep, lastRun) && events == Told(polls, k)
    && forall i :: 0 <= i < k ==> !Terminal(ShownStatus(polls(i)))
  }

  lemma NothingPolledYet(polls: nat -> Poll)
    ensures Ongoing(polls, 0, [], map[], None)
  {
  }

  lemma StreamGoesOn(polls: nat -> Poll, k: nat, before: seq<SseEvent>, events: seq<SseEvent>,
                     last: map<nat, StepStatus>, lastRun: Option<RunStatus>,
                     lastStep: map<nat, StepStatus>, lastRun': Option<RunStatus>)
    requires Ongoing(polls, k, before, last, lastRun) && !Terminal(ShownStatus(polls(k)))
    requires Reported(polls, k + 1, events, lastStep, lastRun') && events == before + PollTold(polls, k)
    ensures Ongoing(polls, k + 1, events, lastStep, lastRun') && IsStream(polls, k + 1, events)
  {
    assert Told(polls, k + 1) == Told(polls, k) + PollTold(polls, k);
    hide Replica, PollTold, Told, ShownStatus;
  }

  lemma StreamEnds(polls: nat -> Poll, k: nat, before: seq<SseEvent>, events: seq<SseEvent>,
                   last: map<nat, StepStatus>, lastRun: Option<RunStatus>)
    requires Ongoing(polls, k, before, last, lastRun) && Terminal(ShownStatus(polls(k)))
    requires events == before + PollTold(polls, k) + [DoneEvent(ShownStatus(polls(k)))]
    requires Replica(polls, k + 1, events)
    requires forall i {:trigger events[i]} :: 0 <= i < |events| && events[i].DoneEvent? ==> i == |events| - 1
    ensures IsStream(polls, k + 1, events)
  {
    assert Told(polls, k + 1) == Told(polls, k) + PollTold(polls, k);
    hide Replica, PollTold, Told, ShownStatus;
  }

  /** One turn of the loop, and the end of the stream if the polled status is terminal. */
  method Turn(ghost polls: nat -> Poll, ghost k: nat, poll: Poll, before: seq<SseEvent>,
              last: map<nat, StepStatus>, lastRun: Option<RunStatus>)
    returns (events: seq<SseEvent>, lastStep: map<nat, StepStatus>, lastRun': Option<RunStatus>, done: bool)
    requires Ongoing(polls, k, before, last, lastRun) && poll == polls(k)
    ensures done <==> Terminal(ShownStatus(polls(k)))
    ensures IsStream(polls, k + 1, events)
    ensures !done ==> Ongoing(polls, k + 1, events, lastStep, lastRun')
  {
    hide IsStream, Told, PollTold, Replica, ShownStatus, Terminal;
    events, lastStep, lastRun' := ReportPoll(polls, k, poll, before, last, lastRun);
    done := Terminal(ShownStatus(poll));
    if done {
      events := AppendDone(polls, k + 1, events, ShownStatus(poll));
      StreamEnds(polls, k, before, events, last, lastRun);
    } else {
      StreamGoesOn(polls, k, before, events, last, lastRun, lastStep, lastRun');
    }
  }

  /** `stream_run_progress`: unless a terminal status was polled, the time cap ended it. */
  method StreamRunProgress(polls: nat -> Poll, interval: real, maxSeconds: real)
    returns (events: seq<SseEvent>, k: nat)
    requires interval > 0.0
    ensures 1 <= k <= PollLimit(maxSeconds, interval)
    ensures IsStream(polls, k, events)
    ensures !Terminal(ShownStatus(polls(k - 1))) ==> Slept(k - 1, interval) >= maxSeconds
    ensures k > 1 ==> Slept(k - 2, interval) < maxSeconds
  {
    events, k := [], 0;
    NothingPolledYet(polls);
    OneMoreSleep(0, interval);
    hide Ongoing, IsStream, ShownStatus, Terminal, PollLimit, Slept;
    var lastStep: map<nat, StepStatus> := map[];
    var lastRun: Option<RunStatus> := None;
    var elapsed := 0.0;
    ghost var limit := PollLimit(maxSeconds, interval);
    while true
      invariant Ongoing(polls, k, events, lastStep, lastRun)
      invariant elapsed == Slept(k, interval)
      invariant k > 0 ==> Slept(k - 1, interval) < maxSeconds
      decreases limit - k
    {
      if k > 0 { TimeLeftMeansPollsLeft(maxSeconds, interval, k); }
      OneMoreSleep(k, interval);
      var done;
      events, lastStep, lastRun, done := Turn(polls, k, polls(k), events, lastStep, lastRun);
      k := k + 1;
      if done {
        return;
      }
      if elapsed >= maxSeconds {
        return;
      }
      elapsed := elapsed + interval;
    }
  }
}
