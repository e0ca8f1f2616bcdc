# Event Creator: a model of its pipeline and the laws it keeps

Event Creator takes WhatsApp exports, sends the recent part of each conversation to a language
model, and stores the events that come back. This project models the parts of it where ordering,
concurrency, parsing and storage interact, and proves what they guarantee.

* **Dispatching runs** (`Payloads`, `Dispatch`, `DispatchInvariants`, `DispatchClaims`,
  `DispatchTheorems`, `DispatchFinality`, `DispatchLimits`, `DispatchService`). A transition system over run
  rows, queued tasks and any number of handlers, each at a program point. The queue may deliver a task any number of
  times and concurrently, a handler may be killed at any await, an enqueue may fail before or after it
  took effect. `DispatchService` is the same code as methods over the rows and the queue, with other
  handlers acting at every await; each method is tied to the transition system.
* **One run** (`Events`, `ConcurrentSave`, `RunViews`, `RunStories`, `DispatchStories`, `StorySteps`,
  `Runner`). A story is everything that is ever committed to one run: its claim, the commits of the execution
  that claimed it, and the marks of deliveries whose storage setup failed. `RunViews` is the grammar of the
  states that others see, `RunStories` says which stories show only such states, `DispatchStories` gives every
  behaviour of the dispatch protocol a story with its row writes, and `StorySteps` says what every story shows
  of its steps. `Runner.Execution` is the seven-step pipeline as methods over a database session; at every
  await another session commits an event row or a failed setup marks the run, or the execution stops there.
  `ConcurrentSave` is what a save comes to among such sessions.
* **Watching a run** (`Progress`, `ProgressTheorems`). The polling stream, and what a browser is told over
  several connections when each poll's two reads are positions in the history of one story.
* **The date filter** (`Dates`, `Patterns`, `Stamps`, `Printing`, `Recognition`, `MessageFilter`,
  `Lines`, `Window`, `WindowFilter`, `FilterTwice`, `FilterLimits`). The four timestamp formats as patterns matched by
  backtracking, the vote on the day/month order, date resolution, and the window walk.
* **Smaller cores.** The event search (`Search`, `EventList`), the get-or-create race (`PromptRace`,
  `PromptService`), decoding (`Decode`), archive member selection (`Archive`), and the S3 key space
  against the in-memory provider (`Storage`, `StorageRefinement`).

Where the source updates state in place the model is a class whose methods are specified by a function
or a transition, and the laws are lemmas about that function or transition.

A method that awaits has a budget of suspensions that it survives; at the next one it stops, because it is
killed there or because an exception that nothing catches is raised. Its contract says how large a budget is
large enough, and that with such a budget it completes and in which state; failures with a cause in the model,
a violated constraint or a failed enqueue, are stated separately.

Where the code and its own prose differ, the model follows the code:

* `docs/adr/whatsapp-archive-import-date-order-inference.md:31` lets one line with a first component
  above 12 decide the order; the code takes a majority vote.
* `app/api/v1/import_pending_files.py:6-10` says that the queue's concurrency limit keeps a batch
  sequential; the code chains the batch, and handlers can overlap when a task is delivered twice
  (`DispatchLimits.BatchItemsMayOverlap`).
* `app/services/pipeline/runner.py:136-139` says that the unique constraint is never hit; another run of
  the same user can commit the key between the check and the insert, and then the execution stops there:
  exactly then (`Runner.Execution.Flush`), and it does happen (`Runner.KeyTakenAfterCheck`).
* `app/services/pipeline/runner.py:255-257` wants the stream never to end with step 7 still pending. For a run
  without a failed setup, `done` follows a finished step 7 if and only if no step row was committed between
  the last poll's two reads (`ProgressTheorems.DoneShowsAFinishedRunIff`, with a stream for which it fails in
  `ProgressTheorems.DoneMayFollowAStaleStep`). A run that a failed setup marked FAILED
  (`app/services/pipeline/dispatch.py:111-129`) is done without any step 7
  (`ProgressTheorems.DoneWithoutNotify`).
* The same mark adds a second row of step 1, so that step 1 can go back: exactly if a setup fails after the
  claimant's step 1 has succeeded, or before it begins (`StorySteps.StepGoesBackIff`).
* `app/services/pipeline/dispatch.py:146-158` treats SUCCESS and FAILED as final; a failed setup of a second
  delivery may overwrite SUCCESS, and a claimant may overwrite the FAILED of a failed setup
  (`DispatchTheorems.TerminalChangesIff`, `DispatchFinality.FinalIff`).

Laws that hold only under a condition are stated with it, as an equivalence:

| law | holds exactly if | where |
|---|---|---|
| a terminal status is final | no handler under way threatens it: an unfinished claimant; for SUCCESS also a delivery past the terminal check, or an endpoint about to mark the run | `DispatchFinality.FinalIff` |
| the next item has no task while a run is at work | no other delivery of the item has handed the batch on | `DispatchTheorems.NextItemQueuedIff` |
| a run's history fits the grammar and only moves forward | storage setup never failed for it | `RunStories.LegalIff` |
| a step never goes back | it is not step 1, or no failed setup met the claimant's step 1 | `StorySteps.OnlyForwardIff` |
| `done` follows a finished step 7 | no step row was committed between the last two reads | `ProgressTheorems.DoneShowsAFinishedRunIff` |
| the insert goes through | no other session committed the key since the check | `Runner.Execution.Flush` |
| saving a batch completes, if not cut off | no insert meets a key that its check had not seen, as the turns of the other sessions decide | `Runner.Execution.DeduplicateAndSave` |
| a day-first export resolves back | some day exceeds 12, or every day equals its month | `MessageFilter.DmyExportResolvesIff` |
| foreign lines are harmless | they do not outvote the file, or every genuine line reads the same either way | `MessageFilter.ForeignLinesHarmlessIff` |
| filtering twice changes nothing | the surviving lines vote as all did, or stay together in one window in the order they vote for | `FilterLimits.FilteringAgainIff` |
| the last writer of a prompt wins | its text differs from the one it had loaded, or was there anyway | `PromptRace.LastCommitterWinsIff` |
| decoding gives the text back | it does not begin with U+FEFF | `Decode.DecodeRoundTripIff` |
| a storage operation loses no file | it disturbs none | `StorageRefinement.NothingLostIff` |

## Model

| member | source | states |
|---|---|---|
| `Payloads.FirstBodyCarriesBatch` | app/api/v1/upload.py:209-231 | the body that the scheduler enqueues for a batch parses to item 0 with exactly the items after it |
| `Payloads.NextBodyRefinesDirect` | app/api/v1/internal_pipeline.py:121-135 | the body that a handler builds for the next item parses to what the scheduler would have built for that item directly |
| `Payloads.ItemsCarry` | app/api/v1/upload.py:126-146 | the task for file i of a batch carries, field by field, that file's id, name, run and mode, its content exactly in the modes "fake" and "ephemeral", the same for each later file in order, and the user and prompt of the request |
| `DispatchInvariants.ApplyEvolves` | app/services/pipeline/dispatch.py:111-129 | every step keeps the rows, tasks, batches and deliveries there are, and no row that left PENDING returns to it, even where FAILED is written unconditionally |
| `DispatchInvariants.KeepsTasks` | app/api/v1/internal_pipeline.py:114-135 | every step keeps: a task for item i carries items i..n-1 of its batch, and items 0..i-1 have left PENDING |
| `DispatchInvariants.KeepsDeliveries` | app/services/pipeline/dispatch.py:217-249 | every step keeps what each program point of a handler implies about its run and its claim |
| `DispatchInvariants.KeepsAcked` | app/api/v1/internal_pipeline.py:138-160 | every step keeps: an acknowledged task's run has left PENDING, and the next item of its batch has a task |
| `DispatchInvariants.KeepsEndpoints` | app/services/pipeline/dispatch.py:188-197 | every step keeps: an accepted batch has its first task; while runs are being marked failed, the marked ones have left PENDING, and after a rejection all of them |
| `DispatchClaims.KeepsClaims` | app/services/pipeline/dispatch.py:161-185 | every step keeps: no run is claimed twice, and within a batch claims come in item order |
| `DispatchClaims.KeepsStatuses` | app/services/pipeline/dispatch.py:161-185 | every step keeps: a row has left PENDING exactly if some delivery claimed it or storage setup failed for it |
| `DispatchClaims.KeepsOrigins` | app/api/v1/internal_pipeline.py:114-135 | every step keeps: each delivery and each endpoint enqueues at most one task, for the item after its own |
| `DispatchClaims.ReachableInv` | app/services/pipeline/dispatch.py:200-259 | the whole invariant holds in every reachable state of the delivery system |
| `DispatchTheorems.NeverPendingAgain` | app/services/pipeline/dispatch.py:161-185 | under any interleaving, redelivery, failure and kill, a run that left PENDING never returns to it |
| `DispatchTheorems.AtMostOneExecution` | app/services/pipeline/dispatch.py:226-249 | in every reachable state whoever is in the pipeline holds a claim, and no two claims are for one run; a run is PENDING exactly until claimed or failed in setup |
| `DispatchTheorems.TaskImpliesEarlierStarted` | app/api/v1/internal_pipeline.py:138-160 | a task for item i exists only when items 0..i-1 have all left PENDING |
| `DispatchTheorems.ClaimsFollowBatchOrder` | app/api/v1/internal_pipeline.py:114-160 | pipeline executions of a batch start in batch order, even with duplicated and concurrent deliveries |
| `DispatchTheorems.PendingRunIsCovered` | app/api/v1/internal_pipeline.py:114-160 | while a run of an accepted batch is PENDING, a task that is not acknowledged stands at its item or earlier and carries it; unless a task of the batch was dropped, it is queued |
| `DispatchTheorems.NothingLeftPending` | app/api/v1/import_pending_files.py:111-131 | when all tasks of a batch have left the queue by success, or the endpoint has answered `dispatch_error`, none of its runs is PENDING |
| `DispatchTheorems.EveryPayloadIsDirect` | app/api/v1/upload.py:126-146 | every task ever queued carries its item, exactly the later items, and the original user and prompt; and each of them carries, field by field, the id, name, mode and content of its file |
| `DispatchTheorems.OneTaskPerItem` | app/api/v1/internal_pipeline.py:121-135 | without redelivery no item gets two tasks |
| `DispatchTheorems.ExactlyOneTaskPerItem` | app/api/v1/internal_pipeline.py:121-135 | without redelivery a batch whose tasks are all acknowledged made exactly one task per item |
| `DispatchTheorems.SequentialWithoutRedelivery` | app/api/v1/internal_pipeline.py:150-159 | without redelivery the items of a batch are handled strictly one after another |
| `DispatchTheorems.NextItemQueuedIff` | app/services/pipeline/dispatch.py:234-239 | while a delivery is in the pipeline, the next item of its batch has a task if and only if another delivery of the same item has handed the batch on |
| `DispatchTheorems.OverlapNeedsAnotherDelivery` | app/api/v1/internal_pipeline.py:138-160 | two items of a batch are at work at once only if another delivery of the earlier one has handed the batch on |
| `DispatchTheorems.TerminalChangesIff` | app/services/pipeline/dispatch.py:111-129 | in every state a step changes a terminal status if and only if it is a setup failure that loaded another status and hits SUCCESS, the start of a claimant that had loaded anything but IN_PROGRESS, or the finish of a claimant with the other outcome |
| `DispatchFinality.FinalIff` | app/services/pipeline/dispatch.py:111-197 | in every reachable state: a terminal status stays whatever happens from there on if and only if its claimant is not unfinished and, for SUCCESS, no delivery past the terminal check has yet to set up storage or to mark the run, and no endpoint is about to mark it |
| `DispatchTheorems.OnlySetupFailureOverwrites` | app/services/pipeline/dispatch.py:111-129 | while storage setup has never failed for a finished run, only a setup failure can overwrite its status |
| `DispatchTheorems.TerminalIsFinal` | app/services/pipeline/dispatch.py:146-158 | over whole behaviours: if storage setup never fails for a run, its terminal status is final |
| `DispatchLimits.SuccessMayBecomeFailed` | app/services/pipeline/dispatch.py:111-129 | a reachable behaviour in which a redelivery's failed setup turns SUCCESS into FAILED |
| `DispatchLimits.FailedMayBecomeSuccess` | app/services/pipeline/runner.py:426-433 | a reachable behaviour in which the claimant finishes after a redelivery's failed setup has written FAILED, and turns it into SUCCESS |
| `DispatchLimits.FailedMayBecomeInProgress` | app/services/pipeline/runner.py:280-292 | a reachable behaviour in which a claimant that loads its run after the mark turns FAILED into IN_PROGRESS |
| `DispatchLimits.BatchItemsMayOverlap` | app/services/pipeline/dispatch.py:234-239 | a reachable behaviour in which a redelivery loses the claim, advances the chain, and two items of a batch are processed at once |
| `DispatchService.Service.ClaimRun` | app/services/pipeline/dispatch.py:161-185 | succeeds exactly on a PENDING row, which becomes IN_PROGRESS, and otherwise writes nothing |
| `DispatchService.Service.FailRunWithoutStorage` | app/services/pipeline/dispatch.py:111-129 | adds the failed row of step 1 and writes FAILED, unless FAILED is what it loaded; other handlers may write between its load and its commit |
| `DispatchService.Service.RunAlreadyTerminal` | app/services/pipeline/dispatch.py:146-158 | true exactly for SUCCESS and FAILED |
| `DispatchService.Service.RunPipelineDispatch` | app/services/pipeline/dispatch.py:200-259 | with others acting at every await: it completes if it survives six suspensions, the run has then left PENDING, whichever path was taken, and every path is a behaviour of the transition system; with nobody else acting, a failed setup leaves the run FAILED with one failed row more, a claimed run the status of its outcome, and any other run as it was |
| `DispatchService.Service.AdvanceBatchChain` | app/api/v1/internal_pipeline.py:114-135 | returns normally exactly if it is not cut off and the enqueue does not raise, and then the next body is in the queue, if items remain |
| `DispatchService.Service.RunPipelinePush` | app/api/v1/internal_pipeline.py:138-160 | a 200 means that the run has left PENDING and the rest of the batch is queued again; it says `already_terminal` exactly if the run was successful or failed at the check; it is given if eight suspensions are survived and the enqueue does not raise; with nobody else acting the rows afterwards are determined; any other end leaves the delivery unacknowledged |
| `DispatchService.Service.ScheduleBatch` | app/api/v1/upload.py:195-231 | the loop builds every item in order, and what is enqueued parses to item 0 with all later items, each carrying its own file field by field |
| `DispatchService.Service.MarkRunsFailedToSchedule` | app/services/pipeline/dispatch.py:188-197 | it completes if it survives two suspensions a run, and then no run of the batch is PENDING |
| `DispatchService.Service.ImportPendingFiles` | app/api/v1/import_pending_files.py:97-132 | every file gets an item that carries it field by field; 202 names the first run of an accepted batch, whose first task carries all its files, and is answered exactly if the enqueue succeeds; `dispatch_error` is answered only when no run of the batch is PENDING; one of them is answered if 1 + 2n suspensions are survived |
| `Events.SaveMeaning` | app/services/pipeline/runner.py:128-169 | saving keeps the unique key and the old rows, adds rows of this run only, and makes the user's keys the old keys together with the batch's |
| `Events.SaveCountsNewKeys` | app/services/pipeline/runner.py:140-169 | the number of rows added is the number of keys not stored before |
| `Events.SaveTwoBatches` | app/services/pipeline/runner.py:128-169 | saving one batch after another is saving their concatenation |
| `Events.SaveAgainAddsNothing` | app/services/pipeline/runner.py:135-139 | processing the same batch again, in any run, adds nothing |
| `Events.FirstOccurrenceWins` | app/services/pipeline/runner.py:141-154 | of several events with one key the first is the one stored |
| `Events.SaveInColumns` | app/services/pipeline/runner.py:140-169 | with the columns written out: saving adds rows for exactly those events of the batch, in order, of which no earlier one agrees in description and resolved date and no stored row of the user does; afterwards each event of the batch has such a row, and no two rows of a user agree in both |
| `Events.SavedInColumns` | app/services/pipeline/runner.py:128-169 | among other runs' inserts: no two rows of a user agree in both columns, every event of the batch is stored, and this run holds exactly the first events of their kind that no other run holds |
| `RunViews.StageGrammar` | app/services/pipeline/runner.py:265-433 | the state at every stage of a run fits one grammar: rows 1..n or 1..k then 7, one failed step among 1, 2, 4, 5, only the newest in progress, counts equal to rows, events only after step 6, the file moved at most once and after the matching status |
| `RunViews.StageAdvances` | app/services/pipeline/runner.py:265-433 | from one stage to a later one no step, status, event or move goes back |
| `RunStories.StepIsEdit` | app/services/pipeline/runner.py:82-111 | as long as no setup failed, each commit of the execution is the edit of the view that its next stage calls for |
| `RunStories.LegalIff` | app/services/pipeline/dispatch.py:111-129 | for everything that can be committed to a run: its history fits the grammar at every commit and only moves forward if and only if storage setup never failed for it |
| `RunStories.RowIsWritten` | app/services/pipeline/dispatch.py:111-185 | the row of a story is what its row writes make of a PENDING row |
| `RunStories.StoryFacts` | app/services/pipeline/runner.py:265-433 | in every story, failed setups included: the count is the number of rows inserted, nothing is inserted before the end of step 6, a claimed run is not PENDING, and a step that is being worked on has a row |
| `RunStories.StepMayGoBack` | app/services/pipeline/dispatch.py:111-129 | a story in which a redelivery's setup fails after the claimant has started and finished step 1, and step 1 goes from success to failed |
| `RunStories.MovesShown` | app/services/pipeline/runner.py:254-262 | the file is moved to `processed` at the end of a won run, to `failed` at the end of a lost one, once, and otherwise not at all |
| `DispatchStories.EveryBehaviourHasStory` | app/services/pipeline/dispatch.py:111-259 | every behaviour of the dispatch protocol has, for each of its runs, a story with exactly its writes to the row in their order; the row at the end is the story's, and what the story shows is legal if and only if the protocol counted no failed setup |
| `DispatchStories.LegalIffNoFailedSetup` | app/services/pipeline/dispatch.py:111-185 | and so it is for every story with those row writes, whatever steps come in between |
| `StorySteps.NotifyShownIff` | app/services/pipeline/runner.py:196-240 | in every story step 7 shows success if and only if the execution has ended its notification |
| `StorySteps.FinalStatusStays` | app/services/pipeline/runner.py:101-111 | in every story a final status of one of the steps 2 to 7 stays whatever is committed later |
| `StorySteps.StepGoesBackIff` | app/services/pipeline/dispatch.py:111-129 | a commit takes what a step shows back if and only if the step is the first, and a setup fails after it succeeded or it begins after a setup failed |
| `StorySteps.OnlyForwardIff` | app/services/pipeline/progress.py:89-101 | over its whole history a run shows steps 2 to 7 only forward, and step 1 if and only if no such commit was made |
| `StorySteps.NoFailureNoTurn` | app/services/pipeline/runner.py:265-433 | without a failed setup no such commit is made |
| `RunViews.LegalAdvances` | app/services/pipeline/runner.py:265-433 | in a legal history every later state follows from every earlier one |
| `Runner.Execution.BeginStep` | app/services/pipeline/runner.py:82-98 | unless cut off at its one suspension, its commit is exactly the beginning of the step, whatever else happens around it |
| `Runner.Execution.Commit` | app/services/pipeline/runner.py:82-111 | a commit publishes all that the session has written, and nothing else of this session; it happens exactly if the suspension is survived |
| `Runner.Execution.FinishStep` | app/services/pipeline/runner.py:101-111 | unless cut off, its commit is exactly the row's final status together with everything else the session holds |
| `Runner.Execution.Flush` | app/services/pipeline/runner.py:167-169 | the insert violates the constraint if and only if its key is there after the suspension; it stops exactly if cut off or violated, and otherwise the row is inserted |
| `Runner.KeyTakenAfterCheck` | app/services/pipeline/runner.py:145-169 | an execution in step 6 whose check finds no event with the key, after which another run of the user commits one, so that the insert violates the constraint |
| `Runner.Execution.DeduplicateAndSave` | app/services/pipeline/runner.py:128-169 | unless cut off it ends exactly as the turns of the other sessions decide: in the clash of a given row, or with the given rows inserted; then every description with its resolved date in the batch is stored, once per user, this run holds exactly the first such events that no other run holds, and the count is their number; undisturbed the result is exactly the specification |
| `ConcurrentSave.ClashWasOvertaken` | app/services/pipeline/runner.py:140-169 | in any such end, a clash is with a key that was not there at the duplicate check of its event and is there at the insert |
| `Runner.Execution.Notify` | app/services/pipeline/runner.py:196-240 | step 7 begins, one notice is handed over, step 7 succeeds; it completes exactly if it survives its suspensions; cut off, among other things by a sender that raises, it has handed over at most that notice |
| `Runner.Execution.FailRun` | app/services/pipeline/runner.py:243-262 | notice, then FAILED, then the move to failed; it completes if it survives six suspensions; cut off, at most that notice went out and the story says how far it got |
| `Runner.Execution.RunStep` | app/services/pipeline/runner.py:290-398 | unless cut off, a step ends with its status exactly if its work is good, and otherwise fails the whole run at that step with one failure notice |
| `Runner.Execution.SaveEvents` | app/services/pipeline/runner.py:400-413 | unless cut off or violated, rows, their count and the end of step 6 become visible in one commit |
| `Runner.Execution.Extract` | app/services/pipeline/runner.py:290-371 | unless cut off, step 2 ends as success for an archive and as skipped for any other file, and it is passed exactly if the download succeeds and the archive yields a chat, or the file holds no NUL |
| `Runner.LastStageShowsAnswers` | app/services/pipeline/runner.py:265-433 | from what the collaborators answered follows, for the end of every story, the final status of each of the seven steps, where the file is moved, and the status of the run if no failed setup marked it |
| `Runner.Execution.RunPipeline` | app/services/pipeline/runner.py:265-433 | it stops only if its budget is too small or another session committed a key of the batch; otherwise every step, the run and the file end as its collaborators' answers determine (a plain file skips step 2, an archive does not), with every event of the batch stored once by description and resolved date, the rows counted and that count announced; wherever it stops at most one notice went out, and the committed history is legal if and only if no setup failed for the run |
| `Progress.LoadedStatusIsStepOf` | app/services/pipeline/progress.py:89-101 | the dictionary built from the rows holds, for each step, the status of the last row with its number |
| `Progress.LastRowCounts` | app/services/pipeline/progress.py:89-101 | a number is recorded exactly if some row has it, with the status of the last such row |
| `Progress.BuildStepViews` | app/services/pipeline/progress.py:63-74 | always seven views in order under the names of the seven steps, each with the recorded status or pending |
| `Progress.StreamRunProgress` | app/services/pipeline/progress.py:104-156 | poll by poll the events are exactly the steps, in order, and then the run, whose status the poll before did not show; `done` comes at most once, last, and exactly for a terminal status, which no earlier poll showed; otherwise the slept time reached the cap, which it had not before; the polls are at most ceil(max/interval) + 1 |
| `Progress.TimeLeftMeansPollsLeft` | app/services/pipeline/progress.py:120-156 | while the slept time is under the cap the poll limit is not reached |
| `ProgressTheorems.ChangesNeverRepeat` | app/services/pipeline/progress.py:124-136 | no status is reported twice in a row |
| `ProgressTheorems.ReplayGivesLastPoll` | app/services/pipeline/progress.py:120-156 | replaying a stream's events gives exactly the last polled view |
| `ProgressTheorems.NeverBackwards` | app/services/pipeline/progress.py:104-156 | over any number of streams, cut off or not, whose polls read one run's history in order, the events for a step never go back; for step 1, if no failed setup met the claimant's step 1 |
| `ProgressTheorems.GoingBackMayBeSeen` | app/services/pipeline/progress.py:104-156 | for every run whose step 1 went back there are two connections whose events for step 1 go back |
| `ProgressTheorems.StaleReadIff` | app/services/pipeline/progress.py:123-140 | rows read before a terminal status show step 7 as success if and only if no step row was committed between the two reads |
| `ProgressTheorems.DoneShowsAFinishedRunIff` | app/services/pipeline/runner.py:243-262 | for a run without a failed setup: after a stream that ended with `done`, the last event for step 7 is success if and only if no step row was committed between the last two reads, and then the events show a finished run, step by step |
| `ProgressTheorems.DoneShowsNotifyIff` | app/services/pipeline/runner.py:243-262 | for every run: after `done` the last event for step 7 is success if and only if the execution had ended its notification when the last poll read the rows |
| `ProgressTheorems.DoneMayFollowAStaleStep` | app/services/pipeline/progress.py:123-140 | a run that is claimed, started and succeeds step by step, and a stream of it that reports step 7 in progress and then `done` |
| `ProgressTheorems.DoneWithoutNotify` | app/services/pipeline/dispatch.py:111-129 | a run whose storage could not be set up, and a stream of it that ends with `done` and step 7 pending, both reads seeing one commit |
| `Dates.OrdinalOrder` | app/core/message_filter.py:148-155 | comparing day numbers is comparing dates, and different dates have different numbers |
| `Dates.OrdinalCounts` | app/core/message_filter.py:148-155 | the day after a date has the next number |
| `Dates.DaysOfMonths` | app/core/message_filter.py:106-109 | the dates that can be built, month by month and leap years included |
| `Patterns.MatchSound` | app/core/message_filter.py:69-78 | backtracking finds only captures that some way of matching gives |
| `Patterns.MatchComplete` | app/core/message_filter.py:69-78 | backtracking finds a match whenever there is a way to match |
| `Patterns.OneWay` | app/core/message_filter.py:38-52 | a deterministic pattern has at most one way to match any line |
| `Patterns.CharactersAre` | app/core/message_filter.py:31-52 | which characters a pattern takes for digits and for spaces |
| `Stamps.FormatsDeterministic` | app/core/message_filter.py:38-52 | all four formats are deterministic |
| `Stamps.StampsUnambiguous` | app/core/message_filter.py:38-78 | for every line, any two ways of matching any of the formats are the same format and the same captures |
| `Stamps.MatchLineIs` | app/core/message_filter.py:69-78 | so the order in which the formats are tried does not matter |
| `Stamps.DecimalNotation` | app/core/message_filter.py:72-78 | components are read in decimal, the most significant digit first |
| `Printing.PrintedStampIsRead` | app/core/message_filter.py:38-78 | a stamp printed in any format, followed by a non-space sender, is read back to its components |
| `Recognition.DatedLinesAreStamps` | app/core/message_filter.py:31-52 | a line is recognised if and only if it is a printed stamp followed by something that is not a space |
| `MessageFilter.MdyExportResolves` | app/core/message_filter.py:81-109 | any list of dates written month first, ISO lines mixed in, resolves back exactly |
| `MessageFilter.DmyOrderIff` | app/core/message_filter.py:87-96 | a day-first file is read day first if and only if some non-ISO line has a day above 12 |
| `MessageFilter.DmyExportResolvesIff` | app/core/message_filter.py:87-109 | written day first it resolves back exactly if and only if some day exceeds 12 or every non-ISO day equals its month |
| `MessageFilter.ForeignLinesHarmlessIff` | app/core/message_filter.py:87-96 | foreign lines leave every genuine month-first date unchanged if and only if their day-first votes do not outnumber all decisive month-first lines, or every genuine line reads the same either way |
| `MessageFilter.CountSplit` | app/core/message_filter.py:94-95 | the votes of a file are the votes of its genuine lines plus those of the foreign ones |
| `MessageFilter.WritableDates` | app/core/message_filter.py:81-84 | a date can be written as a stamp if and only if its year is 100 or later; 1969 to 2068 with two digits |
| `MessageFilter.WrittenYear` | app/core/message_filter.py:81-84 | a written year is the year in full, or its last two digits for 1969 to 2068 |
| `Lines.SplitHasNoBoundary` | app/core/message_filter.py:139 | the lines of any text hold no character that ends a line |
| `Lines.SplitJoin` | app/core/message_filter.py:139-159 | joining lines and splitting the text again loses exactly one empty line at the end |
| `Lines.SplitMeaning` | app/core/message_filter.py:139 | a line, one of the ten characters that end a line and more text are that line and the lines of what follows; a carriage return takes a line feed after it with it |
| `Lines.JoinMeaning` | app/core/message_filter.py:159 | joining puts one line feed between any two lines |
| `Window.Walk` | app/core/message_filter.py:151-158 | the loop keeps, in order, exactly the lines at places that follow a dated line inside the window, with no dated line in between, or no dated line at all |
| `Window.KeepsMeaning` | app/core/message_filter.py:151-158 | a line is kept exactly if no line up to it is dated, or some line at or before it is dated inside the window and none in between is dated |
| `Window.SelectedIsSubsequence` | app/core/message_filter.py:151-158 | the kept lines come from increasing positions, which are exactly the kept ones |
| `Window.GrowingWindowKeepsMore` | app/core/message_filter.py:120-128 | with the anchor fixed, what a window keeps is a subsequence of what a larger one keeps |
| `Window.FilterIsIdempotent` | app/core/message_filter.py:139-159 | read in the same order, filtering the kept lines again changes nothing, whatever the window and anchor |
| `Window.KeepsAllIff` | app/core/message_filter.py:139-159 | a filter without an anchor keeps every line if and only if nothing is dated, or the window stays in the calendar and every date is less than it away from the latest |
| `WindowFilter.FilterMessagesWithinWindow` | app/core/message_filter.py:117-159 | an undated text comes back unchanged, another as its kept lines, joined: those that follow a line dated within the window that ends on the anchor or the latest date, or no dated line; recognised exactly if some line matches; an error exactly if the window leaves the calendar |
| `WindowFilter.DefaultAnchorNeverOverflows` | app/core/message_filter.py:148-149 | without an explicit anchor no window of 0 to 36159 days leaves the calendar |
| `FilterTwice.FilteredAgainIff` | app/core/message_filter.py:139-159 | for any two readings of days: a second filter on the second reading keeps all that the first kept if and only if the surviving items have no day on it, or one window spans them all |
| `FilterTwice.KeptVotes` | app/core/message_filter.py:143-159 | the kept lines have the votes that the survivors have among the original lines |
| `FilterLimits.FilteringAgainIff` | app/core/message_filter.py:143-159 | filtering twice, the vote taken anew, changes nothing if and only if the surviving lines of the original vote as all its lines did, or one window spans them in the order they vote for |
| `FilterLimits.SecondFilterMayDropMore` | app/core/message_filter.py:130-137 | a day-first file whose window drops the deciding line, so that a second filter reads it month first and drops a line more |
| `Search.EscapeFirst` | app/api/v1/events.py:131-134 | the three chained replaces escape character by character |
| `Search.EscapeReadsLiterally` | app/api/v1/events.py:131-135 | the escaped text is a well-formed pattern that stands for exactly its own characters |
| `Search.SearchIsSubstringSearch` | app/api/v1/events.py:131-144 | for every search and text the pattern matches exactly if the folded search text occurs in the folded text |
| `EventList.Conditions` | app/api/v1/events.py:120-145 | the collected conditions hold of a row exactly if it is the user's, passes every given filter, and mentions the search text in its type, description, date text or participants |
| `PromptRace.EveryCallerGetsTheRow` | app/api/v1/llm_prompt.py:36-58 | however many callers race, a user has at most one row, whoever returns returns that row, and the unique violation never gets out |
| `PromptRace.ReturnedRowStays` | app/services/user_settings.py:27-48 | a returned row stays the one row of its user for ever |
| `PromptRace.LastCommitterWinsIff` | app/api/v1/llm_prompt.py:61-88 | the last commit on a row leaves its text there if and only if the text differs from the one that caller had loaded, or the row held it anyway |
| `PromptRace.LastCommitterMayLose` | app/api/v1/llm_prompt.py:86-88 | a reachable state in which the last caller to commit wrote the text it had loaded and another writer's text stays |
| `PromptService.Table.GetUserPrompt` | app/api/v1/llm_prompt.py:25-33 | finds the user's row, and never more than one |
| `PromptService.Table.GetOrCreateUserPrompt` | app/api/v1/llm_prompt.py:36-58 | with other callers acting at every await, it returns the user's one row, and does return if it survives three suspensions; the re-raise is unreachable |
| `PromptService.Table.SetUserPrompt` | app/api/v1/llm_prompt.py:61-88 | the last thing it does is to commit on the user's one row, which then holds the text unless it is the text it had loaded; it does return if it survives four suspensions |
| `Decode.Utf8RoundTrip` | app/core/archive.py:66 | decoding the UTF-8 of any text gives the text |
| `Decode.Utf16RoundTrip` | app/core/archive.py:64 | decoding the UTF-16 of any text, in either byte order, gives the text |
| `Decode.MalformedShows` | app/core/archive.py:66 | bytes that are not the UTF-8 of the text read from them show in it by a replacement character |
| `Decode.MaximalSubpart` | app/core/archive.py:66 | what one replacement stands for is one byte, or more that begin an encoding, and never so many that one byte more would still begin one (section 3.9 of the Unicode Standard) |
| `Decode.Malformed16Shows` | app/core/archive.py:64 | bytes that are not the UTF-16 of the text read from them, in either byte order, show in it by a replacement character |
| `Decode.KnownEncodings` | app/core/archive.py:54-67 | the encodings of given characters and the three marks, byte by byte (section 3 of RFC 3629, section 2 of RFC 2781) |
| `Decode.Utf8HasNoMarkByte` | app/core/archive.py:63-64 | no UTF-8 begins with a UTF-16 mark (section 3 of RFC 3629) |
| `Decode.DecodeEachEncoding` | app/core/archive.py:54-67 | from UTF-8 with and without a mark and UTF-16 with either mark, the text comes back without leading marks |
| `Decode.DecodeRoundTripIff` | app/core/archive.py:54-67 | it comes back unchanged from all four if and only if it does not begin with U+FEFF |
| `Archive.BaseNameMeaning` | app/core/archive.py:119 | the base name of a path that ends with a component is that component; slashes and `.` components at the end do not count |
| `Archive.HighestRuleApplies` | app/core/archive.py:146-173 | the result, text or error, is that of the first `_chat.txt`, else of the largest `.txt`, else of the first dot-free member without a NUL; a dotted member that is no `.txt` is never returned; there is no chat exactly if no member is chosen |
| `Archive.ZipAnswer` | app/core/archive.py:105-173 | which member decides, in terms of names, sizes and texts; the answer is its text in full under its own name with the rule's reason, so a text that the stream encodes in any of the four ways comes back unless it begins with a mark; a stream above the cap is too large whatever size it claims, a broken one unreadable, and there is no chat exactly if no member decides |
| `Archive.SortedHeadIsLargest` | app/core/archive.py:152-156 | the head of the members sorted by size and name is the largest |
| `Archive.OrderDoesNotMatter` | app/core/archive.py:146-160 | if a `.txt` file decides, with different names and at most one `_chat.txt`, permuting the members changes nothing |
| `Archive.GzipRoundTripIff` | app/core/archive.py:54-102 | a text compressed within the cap in any of the four encodings comes back from all of them if and only if it holds no NUL and does not begin with a mark |
| `Archive.GzipAnswer` | app/core/archive.py:88-102 | every answer for a gzip file: text, name and error, whatever the stream |
| `Storage.NormalizePrefixMeaning` | app/services/storage/s3.py:33-38 | a prefix is empty or ends with one slash and does not begin with one, and normalising it again changes nothing |
| `Storage.NormalizeFolder` | app/services/storage/s3.py:33-38 | slashes around a folder's path are dropped and one is put after it; a path of slashes alone is no folder |
| `Storage.KeysDiffer` | app/services/storage/s3.py:53-54 | different names have different keys, in each folder and across folders |
| `Storage.FilesOfListing` | app/services/storage/s3.py:70-94 | the files of a listing are exactly the slash-free names under the prefix, each once |
| `Storage.S3Provider.ListNewFiles` | app/services/storage/s3.py:70-94 | whatever the page sizes, the result is exactly the listed objects whose key is the prefix and a name without a slash, and it comes if every page's call is survived |
| `Storage.S3Provider.MoveFile` | app/services/storage/s3.py:101-109 | copy, then delete: exactly what is in the bucket after none, one or both calls, the target being under `processed/` or `failed/`, so that the bytes are under the source or the target wherever it stops, and no other key changes |
| `Storage.S3Provider.UploadFile` | app/services/storage/s3.py:65-68 | the object is stored under the prefix and its name, or, exactly if the call fails, nothing changes |
| `StorageRefinement.FakeProvider.ListNewFiles` | app/services/storage/fake.py:28-29 | lists exactly the files not yet moved, in order of upload |
| `StorageRefinement.S3RefinesInMemory` | app/services/storage/s3.py:65-109 | after any uploads under good, unlisted names and moves of listed files, some cut off after the copy and repeated, the bucket lists exactly what the in-memory provider lists, with the same bytes |
| `StorageRefinement.OnlyOwnKeysChange` | app/services/storage/s3.py:65-109 | an operation changes no key but its own |
| `StorageRefinement.NothingLostIff` | app/services/storage/s3.py:101-109 | a step loses no uploaded file if and only if an upload puts no other bytes under a listed name, and a move neither takes a key that two unmoved files share nor puts other bytes where a file of that name was moved before |

## Left out

- Google Drive and Dropbox, OAuth, tokens, encryption of credentials, push-token verification: calls into
  other services.
- The Gemini client, the notification sender, downloads, and decompression are outcomes chosen freely for
  each execution; an exception that no handler in the pipeline catches is a stop at the next await.
- The single upload endpoint has no methods of its own: its task is that of a batch of one file, and its
  failure path marks that one run (`app/api/v1/upload.py:304-327`).
- `parse_earliest_date` and the column it fills; step log lines, step names and timestamps.
- Paging and sort order of the event list, bulk actions, log pages, templates.
- Base64 of inline contents in payloads: a file's content is carried as it is.
- The queue gives a task up after three attempts; in the model it may drop a task at any time, and
  coverage is stated for tasks that leave by success.
- Events that a user deletes while a run is being processed; rows are only added.
- Digits and letters in timestamps and member names are the ASCII ones, and upper-case folding of member
  names is ASCII; case folding in the search maps single characters to single characters.
- Elapsed time is an exact real, and the poll interval is positive.
- Rows with one step number come back from the database in no specified order (no ORDER BY in
  `app/services/pipeline/progress.py:92-101`); the model takes the order in which they were inserted.
- The failure notice that a failed setup sends, which is best effort and comes after its commit.
- The bucket is not changed by others between two pages of one listing.
- Member selection is stated on the list of members; sniffing the archive kind from its bytes is not modelled.
- A pattern with the escape character before an ordinary character is malformed in the model (as in section
  8.5 of ISO/IEC 9075:1992); no search produces one.
- Idempotence of the filter is stated on lists of lines, because joining and splitting loses an empty last line.
- Window.FilterIsIdempotent: for a fixed way of reading days, because the vote taken anew can change it
  (`FilterLimits.SecondFilterMayDropMore`).
