# dr-queues: the staged-pipeline protocol, verified

dr-queues moves jobs through a pipeline of stages. Queues of an at-least-once broker carry the jobs, workers of each
stage run handlers, a document store keeps the latest row per (run, job, stage), an attempt ledger, an event log, seed
batches and holds, and a terminal tap records finished jobs in batches. What keeps work from being lost or misreported
is only the order of the writes. This project models that order step by step and proves what it guarantees over whole
runs, with crashes, duplicate deliveries, several workers on one job, holds, retries and replays.

`dafny verify dfyconfig.toml` checks everything.

## How it is built

- `Protocol.dfy` is the transition system of one run: ready messages, worker connections with the channel methods they
  sent and the broker has not handled, taps, seeding and replay processes, operators, and the stored documents. Every
  database write, every broker method and every read whose result is used later is a step of its own, and a crash may
  come between any two. An exception that escapes a worker's callback is a crash. Counting attempts, inserting the
  attempt and updating the row are three steps, so recordings of two workers may interleave.
- `Documents.dfy` gives the effect of each single write; the protocol and the classes below both use it.
- `Routing`, `AppendOrder`, `RowShape`, `Ledger`, `Recordings`, `TerminalChain`, `Counting`, `Refinement`, `Frontier`, `Completion`
  and `Drain` each hold one invariant (or measure) and prove that every step keeps it. `Runs.dfy` turns them into the
  main results, about every state of every run that starts from a set-up run. `Scenarios.dfy` shows runs that exist:
  the sequential result is reached, and so are states in which an excluded case does its damage. It also says
  what the protocol does not restrict: any set-up, any number of taps and feeding processes, a crash or an operator's
  step at any moment.
- `Store`, `Execution`, `Workers`, `Tap`, `Eligibility` (with `Feeding`) and `Progress` are the program's objects and procedures in
  imperative form, proved against specification functions. A channel or broker records each call together with what
  the store held at that moment, so contracts can say what precedes what. `PoolCallbackIsProtocolSteps`,
  `FlushIsProtocolSteps`, `SeedingIsProtocolSteps` and `ReplayIsProtocolSteps` prove that an uninterrupted callback,
  flush, seeding or replay is a run of the protocol's steps.
- `Targeting`, `Keys`, `Selectors`, `Manifest`, `Jobs` and `Lifecycle` are the string-level part: partition keys,
  selectors, queue names.

## What is assumed

Of the broker: an unacknowledged delivery becomes ready again when its connection closes (AMQP 0-9-1, section 3.1.8);
the methods sent on one channel take effect in order (section 4.7), so a closing connection loses a suffix of them;
publishing to an undeclared queue drops the message. Of the store: a single-document update is atomic; finding and
then updating is not. Of a run: stage names are distinct and none is "terminal" (`DuplicateNamesBreakRouting` and
`ReservedNameMatters` show why); a handler keeps run_id, job_id, target_tags and partition_key; a run's queues hold
only its messages, which naming guarantees for run ids without "." (`RunsShareNoQueue`) and not for others
(`DottedRunsCollide`). Further hypotheses are in the statements that need them.

## Where the code and its documentation differ

- `docs/design/failure_persistence.md` calls retries bounded. `RetriesAreBoundedExactly` says when: each attempt must be
  inserted while a new count would still choose its action. One worker connection per stage is enough
  (`OneConnectionPerStageIsBounded`); two overlapping recordings exceed the limit (`OverlapBreaksTheBound`).
- The same document says replay republishes jobs and marks them pending. The code marks all of them first, and
  `WorkIsNeverLost` rests on that order.
- It also says a `quota_pool` tag becomes the partition key. It does after sanitizing, and an empty one is ignored.
- Replay accepts any status, COMPLETED included. A COMPLETED row stores the envelope after the handler, so replaying
  it sends the handler its own result (`ReplayRepeatsTheHandler`) and always breaks the sequential result past stage 0,
  while replaying any other row never does (`ReplayKeepsTheFoldExactly`). The step index alone gives it away; for claims
  that ignore the index `ReplayOfCompletedReapplies` has the exact condition.

## Model

| member | source | states |
|---|---|---|
| Runs.DistributedRunIsSequential | src/dr_queues/pipeline/workers.py:99-138 | for every run with deterministic handlers that leave a job alone when they raise, one seed envelope per job id and no replay of COMPLETED rows: every queued message at position k is the first k handlers folded over its seed, every TERMINAL payload is the whole fold, and the payload of every STAGE_STARTED and STAGE_OUTPUT event is read off the fold before and after that stage, whatever crashes, duplicates, holds, retries and replays occur |
| Runs.RunRefines | src/dr_queues/pipeline/execution.py:218-299 | the general form: any claim about envelopes by position that returning handlers carry one position on and raising handlers keep holds, in every reachable state, of every message, worker, tap batch, feeder item, row and event, at its position (one past it for COMPLETED rows) |
| Runs.StepIndexIsPosition | src/dr_queues/workflow/pipeline.py:52-61 | with seeds at index 0, raising handlers that keep the index and no replay of COMPLETED rows, step_index of every queued message equals its pipeline position and names its queue; STAGE_STARTED at stage k carries k, STAGE_OUTPUT k + 1, a TERMINAL payload n; no determinism needed |
| Scenarios.ReplayKeepsTheFoldExactly | src/dr_queues/pipeline/eligibility.py:68-96 | after a run that followed the plan, replaying a stored row keeps every queued envelope equal to the fold of its position if and only if the row is not COMPLETED; the one exception is stage 0 with a seed whose step_index is already 1 and which the first handler returns unchanged |
| Scenarios.ReplayRepeatsTheHandler | src/dr_queues/pipeline/eligibility.py:68-96 | what replaying a COMPLETED row publishes to a stage is that stage's handler applied to its own input, with step_index one past the stage |
| Scenarios.ReplayOfCompletedReapplies | src/dr_queues/runtime/store.py:650-690 | for any claim about envelopes by position that held so far: replaying a COMPLETED row publishes the finished envelope to the stage that finished it, and the queues still meet the claim if and only if that envelope also meets it one position back |
| Scenarios.ReplayOfCompletedMisstamps | src/dr_queues/workflow/pipeline.py:52-61 | in a run whose raising handlers kept the index, whatever the others return, replaying a COMPLETED row puts a message at position k in a queue with step_index k + 1 |
| Runs.WorkIsNeverLost | src/dr_queues/pipeline/workers.py:113-138 | in every reachable state, for every job ever marked pending, at the furthest position the broker accepted it there is a ready message, a delivery whose outcome is not recorded yet, a replay-selectable row (PENDING, HELD, RETRY_WAITING, DEAD_LETTERED), a tap holding it, or its TERMINAL event; deliveries already recorded are discounted and duplicate workers may overwrite rows |
| Frontier.StepKeepsFrontier | src/dr_queues/runtime/store.py:308-515 | every step, crashes included, keeps that invariant |
| Runs.OutputsFormAPrefix | src/dr_queues/pipeline/execution.py:282-299 | in every reachable state the stages with a STAGE_OUTPUT event for a job form a prefix of the pipeline, and an output implies a STAGE_STARTED event |
| Runs.NothingForwardedUnlogged | README.md:69-71 | a job is queued at position k, has started stage k, or has a TERMINAL event (k = n) only if every stage before k has its STAGE_OUTPUT logged |
| AppendOrder.StepKeepsOrder | src/dr_queues/pipeline/workers.py:123-138 | every step keeps append-before-forward, over messages, deliveries, frames in flight, tap batches, feeders, rows and events |
| Runs.NoPublishIsDropped | src/dr_queues/pipeline/eligibility.py:21-36 | what a worker or a feeding process publishes always reaches a declared queue, so the broker never drops it |
| Runs.RowsNameTheirQueues | src/dr_queues/runtime/store.py:804-826 | in every reachable state a pipeline row names the input queue of its stage for its own partition key, and its key, tags and ids are those of the job it stores, which is already resolved |
| Routing.StepKeepsRouting | src/dr_queues/pipeline/runner.py:180-182 | every step keeps every message in the queue of its position and partition, and every consumer on the stage its queue belongs to |
| Runs.HandlerRunsAfterClearCheck | src/dr_queues/pipeline/execution.py:225-246 | a handler runs only after a check, made for the same delivery, at which no stored hold blocked the job |
| Runs.TerminalWritesAreChained | src/dr_queues/pipeline/tap.py:124-139 | in every reachable state: jobs a tap acknowledged have a TERMINAL event, jobs with a TERMINAL event have a TERMINAL row, and every tap's cached ids are within the ids of the log; flushes may be interrupted anywhere and a batch may repeat a job |
| Runs.TerminalRowsAreForGood | src/dr_queues/runtime/store.py:378-430 | a TERMINAL row stays TERMINAL in every later state of the run |
| Runs.RowsKeepTheirShape | src/dr_queues/runtime/store.py:308-515 | under every interleaving: not_before is set iff RETRY_WAITING, hold_id iff HELD, held_until only when HELD, failure_detail only when RETRY_WAITING, DEAD_LETTERED or COMPLETED; attempt_count never exceeds the ledger; a RETRY_WAITING or DEAD_LETTERED row has a ledger entry with its number and action; DEAD_LETTERED implies at least max_attempts entries |
| Runs.AttemptsAreNumberedExactly | src/dr_queues/runtime/store.py:463-490 | in every run, a row's ledger numbers are exactly 1..n if and only if each of its attempts was inserted while the count it was numbered from still stood |
| Runs.RetriesAreBoundedExactly | src/dr_queues/runtime/store.py:474-478 | in every run, a row has at most max(0, max_attempts - 1) retry_waiting attempts if and only if each of its attempts was inserted while a new count would have chosen the same action; it never has fewer than the smaller of that limit and its ledger size |
| Runs.AttemptsAreNumbered | src/dr_queues/runtime/store.py:452-515 | when recordings of one row do not overlap between count and insert, whatever other rows do, its numbers are exactly 1..n and at most max(0, max_attempts - 1) attempts are retry_waiting |
| Runs.OneConnectionPerStageIsBounded | src/dr_queues/runtime/store.py:452-515 | with one worker connection per stage both hold for every row of every run |
| Recordings.RetriesAreBounded | src/dr_queues/runtime/store.py:474-478 | in a ledger numbered 1..n the number of retry entries is exactly the smaller of its size and max(0, max_attempts - 1) |
| Scenarios.OverlapBreaksTheBound | src/dr_queues/runtime/store.py:463-493 | with max_attempts = 2, one job seeded once and replayed while PENDING, and two connections of the first stage that both count before either inserts: a state reached from set-up has two retry_waiting attempts, both numbered 1, which exceeds the limit |
| Runs.ExpectedCountsDistinctJobs | src/dr_queues/runtime/store.py:236-283 | in every reachable state the sum of the active batch counts is the number of distinct actively seeded jobs |
| Runs.CompletionTestIsExact | src/dr_queues/runtime/models.py:176-178 | if seeding reports a failure only when none of the batch's jobs was published or is being replayed, and PENDING rows are replayed for active jobs only, then terminal count >= expected count holds exactly when every actively seeded job has a TERMINAL event |
| Runs.NothingEscapesExactly | src/dr_queues/pipeline/eligibility.py:57-65 | in every run, no job that is queued, recorded or being fed is ever outside the active batches if and only if no step reports a seeding failed after one of its jobs was published or while one is being replayed, and none replays a PENDING row of an inactive job |
| Completion.StepEscapesExactly | src/dr_queues/pipeline/eligibility.py:57-65 | the same for one step: from a state without escaped jobs, a step lets one escape exactly when it does not fail cleanly |
| Runs.CompletionTestMisleadsExactly | src/dr_queues/runtime/models.py:176-178 | without any hypothesis: the count test disagrees with "every active job is recorded" if and only if some active job is unrecorded and at least as many recorded jobs lie outside the active batches |
| Scenarios.EscapedJobMisleads | src/dr_queues/pipeline/eligibility.py:61-63 | a state reached from set-up, for any pipeline with honest handlers: a seeding reports a failure after its one job was published, that job is recorded, another one is seeded, and the count is met while the only active job is unrecorded |
| Scenarios.SequentialResultIsReached | src/dr_queues/pipeline/workers.py:99-138 | for every plan of handlers that keep identity and stamp the index, and every job whose partition each stage serves, a run from set-up ends with a TERMINAL event that carries the fold of all handlers, and is complete |
| Scenarios.AnythingCanBeCutOff | src/dr_queues/pipeline/workers.py:65-97 | a worker connection, tap or feeding process can be cut off in any state it can be in: its unacknowledged messages are ready again and the store keeps what was written |
| Runs.DoneIsConfirmed | src/dr_queues/pipeline/runner.py:242-252 | a tap that is not done when seeding stops and is done later is confirmed by RunStatus.is_complete in every state after that, whatever flags other taps carry |
| Runs.SoleRecorderIsExact | src/dr_queues/pipeline/tap.py:124-149 | a sole recorder's cached ids equal the ids recomputed from the log whenever it is between flushes |
| Runs.DrainTerminates | src/dr_queues/pipeline/workers.py:99-138 | from every reachable state, with no crash, stop, new tap, new seeding or replay read and with operators free to act, the number of worker, broker, tap and feeding steps is at most the fall of a non-negative measure |
| Drain.StepDrains | src/dr_queues/pipeline/tap.py:97-139 | every normal worker, broker, tap and feeding step strictly lowers the measure, publish-before-ack included; operator steps leave it alone |
| Drain.BusyWorkerCanMove | src/dr_queues/pipeline/workers.py:99-138 | a connection that holds a delivery always has an enabled next step: no callback is stuck |
| Runs.QuietRunIsSettled | src/dr_queues/pipeline/workers.py:99-138 | when no normal step is left and every queue has a consumer, each fed job is parked at its frontier where replay finds it, or its TERMINAL event is logged |
| Runs.QuietRunIsStopped | src/dr_queues/runtime/store.py:660-671 | if no seeding or replay failed or died between a mark and its publish and none is under way, a quiet served run has each fed job HELD, RETRY_WAITING or DEAD_LETTERED at its frontier, where the default replay selects it, or its TERMINAL event is logged |
| Runs.QuietRunIsReplayable | src/dr_queues/runtime/store.py:650-690 | under the same conditions a forced replay without options selects, at its frontier, every fed job that is not recorded, and an unforced one does as soon as the row's not_before has passed |
| Runs.ProgressIsAFunnel | src/dr_queues/runtime/status.py:89-104 | in every reachable state a stage's completed jobs are among its started ones, in-flight is the number of open jobs with no clamp, each stage's started jobs are among the previous stage's completed ones, and terminal jobs among the last stage's completed ones |
| Routing.DeliveredAtItsStage | src/dr_queues/pipeline/runner.py:160-163 | a message in a queue a worker subscribes to by name is at that worker's stage, and of a partition the worker was given |
| Routing.WatchedIsFinal | src/dr_queues/pipeline/runner.py:222-231 | a message a tap receives is at the final position |
| Routing.OutgoingOk | src/dr_queues/pipeline/runner.py:180-182 | a job leaving a stage has an output queue, which is the queue of the next position for its key |
| Manifest.RunManifest.RoutesChain | src/dr_queues/manifest/manifest.py:77-93 | looked up by name, stage k reads the queue of position k, which is also the input queue of its own entry, and publishes to position k + 1: each stage reads what its predecessor publishes |
| Manifest.RunManifest.QueueNamesInjective | src/dr_queues/manifest/manifest.py:105-109 | two queue names are equal if and only if the positions are equal and the keys sanitize alike; for derived keys, equal |
| Manifest.BaseQueueDecodes | src/dr_queues/amqp/queues.py:16-29 | a base queue name determines its stage number and role, whatever suffix follows |
| Manifest.KeySuffixDecodes | src/dr_queues/manifest/manifest.py:105-109 | two partition suffixes are equal exactly when the keys are both default or sanitize alike |
| Manifest.RunManifest.WithPartitionKeepsRoutes | src/dr_queues/manifest/manifest.py:44-57 | registering a partition in the manifest changes no queue name |
| Manifest.RunManifest.WithPartitionRegisters | src/dr_queues/manifest/manifest.py:44-57 | registering a partition adds its input and output queue names to every stage that lacks it and changes nothing else |
| Manifest.QueueNameSpelled | src/dr_queues/manifest/manifest.py:105-109 | a queue name is the prefix, ".s1.pending" or ".s<k>.completed", and for a key other than "default" ".partition." and the sanitized key |
| Manifest.RunsShareNoQueue | src/dr_queues/pipeline/runner.py:57-62 | two runs with default prefixes and ids without "." share a queue name if and only if they are one run, at one position, with keys that sanitize alike |
| Manifest.DottedRunsCollide | src/dr_queues/pipeline/runner.py:57 | with a "." in a run id two different runs can share a queue name: a partition queue of one is the first queue of the other |
| Manifest.RunManifest.PartitionQueueSetCovers | src/dr_queues/pipeline/eligibility.py:21-36 | declaring a partition declares exactly the queues of every position for that key |
| Manifest.RunManifest.StageNameInjective | src/dr_queues/manifest/manifest.py:70-75 | with distinct stage names, none "terminal", a recorded stage name determines its position |
| Manifest.DuplicateNamesBreakRouting | src/dr_queues/manifest/manifest.py:70-85 | of any two stages with one name, the later one's input is looked up as that of the first stage so named, which is a different queue |
| Manifest.ChainStageQueues | src/dr_queues/pipeline/runner.py:57-74 | the setup loop gives stage k + 1 the completed queue of stage k as input |
| Manifest.BuildStages | src/dr_queues/pipeline/runner.py:86-98 | one stage entry per step, with its index, handler key, chained queues and worker count |
| Manifest.SetupRunQueues | src/dr_queues/pipeline/runner.py:36-113 | the stored manifest is well formed, its prefix is the given one or "run." and the run id, its queue names and worker counts are spelled out, and the declared queues are exactly those of the default partition |
| Targeting.SanitizeFixedPoints | src/dr_queues/targeting.py:70-72 | a string is unchanged by sanitizing exactly when it is non-empty, of allowed characters and has no outer underscore |
| Targeting.SanitizeIdempotent | src/dr_queues/targeting.py:70-72 | sanitizing twice is sanitizing once |
| Targeting.DerivedKeyIsFixedPoint | src/dr_queues/targeting.py:57-67 | every derived key is a fixed point of the sanitizer |
| Keys.SanitizeKeepsTheMiddle | src/dr_queues/targeting.py:70-72 | what is outside the first and last allowed character other than "_" is dropped; what is between them is kept up to disallowed runs |
| Keys.CollapseRuns | src/dr_queues/targeting.py:70-72 | a maximal run of disallowed characters becomes one underscore and its two sides are treated by themselves |
| Keys.SanitizeFallsBack | src/dr_queues/targeting.py:70-72 | a value without an allowed character other than "_" becomes "default" |
| Keys.PoolDecides | src/dr_queues/targeting.py:60-61 | tag sets with the same non-empty quota_pool derive the same key, the sanitized pool, whatever their other tags; a clean pool is the key itself |
| Keys.OneTagIsItsPart | src/dr_queues/targeting.py:62-67 | without a pool a single tag derives its sanitized key and value joined by "__" |
| Keys.LastTagComesLast | src/dr_queues/targeting.py:62-67 | without a pool a tag whose key comes after all others appends "__" and its own part: together with the single tag this fixes every derived key |
| Keys.EveryTagOccurs | src/dr_queues/targeting.py:62-67 | without a pool every tag's part occurs in the derived key |
| Common.LexLeMeans | src/dr_queues/targeting.py:62-67 | the order of keys and selectors: a prefix first, else by the first differing character |
| Jobs.ResolvingSetsTheKey | src/dr_queues/pipeline/job.py:30-32 | resolving replaces a default key by the derived one and changes nothing else |
| Targeting.SelectorRoundTrip | src/dr_queues/targeting.py:18-29 | printing a selector and parsing it gives it back if and only if its key has no "=" and both parts are non-empty and trimmed; the value may contain "=" |
| Targeting.SelectorsRoundTrip | src/dr_queues/targeting.py:35-41 | printing any parsed list and parsing it again gives the same list |
| Targeting.SelectorListsAreCanonical | src/dr_queues/targeting.py:35-41 | permutations of one list of texts parse to the same sorted list |
| Targeting.SortSorts | src/dr_queues/targeting.py:35-41 | the sorted list is a permutation in ascending (key, value) order |
| Targeting.SortedUnique | src/dr_queues/targeting.py:35-41 | two ascending lists with the same elements are the same list |
| Selectors.PaddedSelectorParses | src/dr_queues/targeting.py:18-29 | blanks around key and value are ignored and the first "=" separates them |
| Selectors.RefusedTexts | src/dr_queues/targeting.py:18-29 | a text is refused exactly when it has no "=" or only blanks before the first one or after it |
| Selectors.OneText | src/dr_queues/targeting.py:35-41 | a blank text adds nothing, another one what it parses to or the error |
| Selectors.TextsAddUp | src/dr_queues/targeting.py:35-41 | a list parses exactly when its two parts do, to the selectors of both |
| Selectors.MatchingIsInclusion | src/dr_queues/targeting.py:31-54 | tags match exactly when all included (key, value) pairs are among them and no excluded one is |
| Documents.ActiveHoldIsFirst | src/dr_queues/runtime/store.py:637-648 | the hold found is the first uncleared, unexpired one whose selectors all match, and none is found exactly when none blocks |
| Documents.ClearingIsCanonical | src/dr_queues/runtime/store.py:608-623 | clearing with any permutation of the texts a hold was set with clears it, it blocks nothing afterwards, and only holds of that run with that list change |
| Store.RunStore.SetTargetHold | src/dr_queues/runtime/store.py:591-606 | appends one uncleared hold of the run with these selectors and this end |
| Store.RunStore.ClearTargetHolds | src/dr_queues/runtime/store.py:608-623 | clears exactly the run's uncleared holds with this selector list and returns how many there were |
| Documents.ClearingOneByOne | src/dr_queues/runtime/store.py:608-623 | clearing hold by hold, as single-document updates in any order, changes exactly the holds reached that have this list |
| Store.RunStore.ActiveHoldForTags | src/dr_queues/runtime/store.py:637-648 | returns the first stored hold that is of the run, uncleared, without an end or with one later than now, and has all its key and value pairs among the tags; none exactly when no stored hold is so |
| Store.RunStore.UpsertJobState | src/dr_queues/runtime/store.py:790-833 | field by field: a set value if given, else nothing if cleared or new, else what the row had; the fixed fields from the job; never one field both set and cleared; no other row changes |
| Store.RunStore.MarkJobPending | src/dr_queues/runtime/store.py:308-326 | every field of the row: it stores the given envelope, key, tags and queue, and is PENDING with no retry time, hold or failure detail, keeping the attempt count; no other row changes |
| Store.RunStore.MarkJobRunning | src/dr_queues/runtime/store.py:328-346 | every field of the row: it stores the given envelope, key, tags and queue, and is RUNNING with no retry time, hold or failure detail, keeping the attempt count; no other row changes |
| Store.RunStore.MarkJobCompleted | src/dr_queues/runtime/store.py:348-361 | every field of the row: it stores the given envelope, key, tags and queue, and is COMPLETED with no retry time or hold, keeping the attempt count and an earlier failure's detail; no other row changes |
| Store.RunStore.MarkJobTerminal | src/dr_queues/runtime/store.py:363-376 | every field of the row: it stores the given envelope, key, tags and queue, and is TERMINAL with no retry time or hold, keeping the attempt count and detail; no other row changes |
| Store.RunStore.HoldJob | src/dr_queues/runtime/store.py:432-450 | every field of the row: it stores the given envelope, key, tags and queue, and is HELD with the hold's id and end and no retry time or failure detail, keeping the attempt count; no other row changes |
| Store.RunStore.RecordJobFailure | src/dr_queues/runtime/store.py:452-515 | every field of the attempt and of the row: the number is one more than the ledger entries of the row, dead-lettered exactly when it reaches the limit, with the failure text in both, and a retry time exactly when it will be retried |
| Store.RunStore.CountAttempts | src/dr_queues/runtime/store.py:463-472 | the number of ledger entries of one (run, job, stage) |
| Store.RunStore.RecordTerminalBatch | src/dr_queues/runtime/store.py:378-430 | writes every row of the batch in order, then every event in order |
| TerminalTaps.RecordingMarksRows | src/dr_queues/runtime/store.py:386-417 | after a batch every job in it has a TERMINAL row that keeps its count and detail, and every other row is untouched |
| TerminalTaps.RecordingAddsIds | src/dr_queues/runtime/store.py:418-430 | a batch adds exactly its job ids to the terminal ids of the log, however often a job occurs in it |
| Store.RunStore.CreateSeedBatch | src/dr_queues/runtime/store.py:236-259 | refused exactly when an id repeats or is already actively seeded, with the offending ids and no change; otherwise one created batch more; active batches stay duplicate-free and disjoint |
| Store.RunStore.DuplicateValues | src/dr_queues/runtime/store.py:861-868 | the ids that occur more than once |
| Store.RunStore.ActiveSeedJobIds | src/dr_queues/runtime/store.py:835-845 | the union of the ids of created and published batches |
| Store.RunStore.ExpectedJobCount | src/dr_queues/runtime/store.py:273-283 | the sum of the active counts, which for disjoint duplicate-free batches is the number of distinct ids |
| Store.RunStore.MarkSeedBatch | src/dr_queues/runtime/store.py:285-306 | changes the status of that batch alone, and nothing when there is no such batch |
| Counting.ExpectedIsExact | src/dr_queues/runtime/store.py:273-283 | for duplicate-free, pairwise disjoint active batches the sum of counts is the size of the union of ids |
| Counting.CompletionIsExact | src/dr_queues/runtime/models.py:176-178 | if nothing outside the active batches is recorded, the count is reached exactly when every active job is recorded |
| Counting.StepKeepsCounting | src/dr_queues/runtime/store.py:236-306 | every step keeps active batches duplicate-free and disjoint, each created batch owned by one seeding process |
| Store.RunStore.ListJobStates | src/dr_queues/runtime/store.py:517-538 | each row of the run in that status, once |
| Store.RunStore.CandidateStates | src/dr_queues/runtime/store.py:660-671 | with a status its rows, else every row that is not PENDING, RUNNING, COMPLETED or TERMINAL, each once |
| Store.RunStore.ReplayableJobStates | src/dr_queues/runtime/store.py:650-690 | exactly the run's rows in the status asked for, or without one in none of PENDING, RUNNING, COMPLETED and TERMINAL, of the job asked for if any, whose tags hold every included pair and no excluded one, a RETRY_WAITING row only when forced or past its not_before; each once |
| Store.DefaultReplaySelects | src/dr_queues/runtime/store.py:650-690 | a replay without options selects a row of the run exactly when it is not PENDING, RUNNING, COMPLETED or TERMINAL and, if RETRY_WAITING, due or forced |
| Store.NamedJobNarrows | src/dr_queues/runtime/store.py:675-676 | naming a job selects exactly that job's rows among those selected without naming it |
| Eligibility.ReplayStageEligibleJobs | src/dr_queues/pipeline/eligibility.py:68-96 | the selected rows, each once, are marked pending and published; without error what was published is each selected row's resolved envelope once, to the input queue of the row's stage and partition, and each of these rows is PENDING with that envelope; the same filter at the same instant then selects a row exactly when it asks for PENDING and the row was just replayed |
| Feeding.ReplayIsProtocolSteps | src/dr_queues/pipeline/eligibility.py:68-96 | a replay without errors of given rows is a run of the protocol's OpenReplay, one ReadRow each, CloseReplayRead, and a feed |
| Eligibility.NothingLeftToReplay | src/dr_queues/pipeline/eligibility.py:68-96 | marking what a replay selected leaves nothing for the same selection, unless it asks for PENDING rows |
| Eligibility.MarkPendingAndPublish | src/dr_queues/pipeline/eligibility.py:99-122 | without error every job is marked, then every queue's jobs are published; on an error only a prefix of the jobs is marked and a prefix of the calls made, and nothing was published before all were marked |
| Eligibility.MarkAndGroup | src/dr_queues/pipeline/eligibility.py:108-120 | the marking loop: queues in order of first use, each with its jobs; on an unknown stage or a failed declaration the jobs before it stay marked |
| Eligibility.PublishGroups | src/dr_queues/pipeline/eligibility.py:121-122 | one publish call per queue, in order; on a failure a prefix of them was made |
| Eligibility.SeedStageEligibleJobs | src/dr_queues/pipeline/eligibility.py:39-65 | refused jobs leave no trace, with the foreign run or pipeline ids named; otherwise one batch more, published exactly when there was no error, failed otherwise; without error each job has a PENDING row at the first stage that stores its resolved envelope under the first queue of its partition, and what was published is each of these envelopes once, to that queue; active batches stay disjoint |
| Eligibility.ValidateSeedJobs | src/dr_queues/pipeline/eligibility.py:125-150 | accepts exactly jobs of this run and pipeline; else names the foreign run ids, or when there are none the foreign pipeline ids |
| Feeding.SeedingIsProtocolSteps | src/dr_queues/pipeline/eligibility.py:39-65 | a seeding without errors is a run of the protocol's Seed, DeclareNext, MarkNext, PublishMarked and FinishFeed steps: same rows, same batch, and the queues grown by the (queue, job) pairs of the procedure's publish calls in their order |
| Feeding.FeedIsProtocolSteps | src/dr_queues/pipeline/eligibility.py:99-122 | marking and publishing without errors is a run of DeclareNext, MarkNext and PublishMarked steps, with the queues grown in the order of the publish calls |
| Eligibility.CallsSendEachOnce | src/dr_queues/pipeline/eligibility.py:99-122 | the calls of a feed without errors publish each given job once, to the queue of its stage and partition |
| Eligibility.PublishingConserves | src/dr_queues/pipeline/eligibility.py:99-122 | the multiset of published (queue, job) pairs equals that of the input |
| Eligibility.OrderIsDistinct | src/dr_queues/pipeline/eligibility.py:119-122 | each queue gets one publish call |
| Eligibility.JobsKeepTheirOrder | src/dr_queues/pipeline/eligibility.py:119-122 | a queue's jobs are published in input order: the place of each is the number of jobs for that queue before it |
| Eligibility.DeclaredOnceAndFirst | src/dr_queues/pipeline/eligibility.py:109-113 | each partition is declared once, at the moment when exactly the jobs before its first job have been marked |
| Eligibility.PublishedAfterMarking | src/dr_queues/pipeline/eligibility.py:107-122 | every publish call is made with all marks in the store, carries at least one job, and its queue was declared by an earlier call |
| Eligibility.MarkingWritesRows | src/dr_queues/runtime/store.py:308-326 | a marked row is PENDING, stores one of the given envelopes with its tags, key and input queue, and has no retry time or hold; events, attempts, batches, holds and other rows are kept |
| StageExecutions.StageExecution.Run | src/dr_queues/pipeline/execution.py:218-299 | hold check, then either the HELD row, or the RUNNING row, STAGE_STARTED, the handler, and STAGE_OUTPUT or the recorded failure; a plain sink records no failure and asks for redelivery |
| StageExecutions.StageExecution.RecordCompleted | src/dr_queues/pipeline/execution.py:301-311 | writes the COMPLETED row of a durable store and nothing else |
| StageExecutions.StageExecution.RecordTerminalBatch | src/dr_queues/pipeline/execution.py:335-345 | uses the batch writer of a durable store, else appends one event per job |
| StageExecutions.HandlerNeedsClearance | src/dr_queues/pipeline/execution.py:225-246 | a job is held exactly when some stored hold blocks it; then the handler plays no part and no event is logged |
| StageExecutions.AcknowledgedMeansRecorded | src/dr_queues/pipeline/execution.py:25-40 | with a durable store every call is acknowledged, and it leaves the row parked (HELD, RETRY_WAITING, DEAD_LETTERED) exactly when it is not forwarded; it is forwarded exactly when no hold blocked and the handler returned, with start and output logged in this order; a plain sink acknowledges exactly the returning calls; other rows are kept |
| Workers.WorkerPool.OnMessage | src/dr_queues/pipeline/workers.py:99-143 | store contents and channel methods in order, each with what the store held when it was sent, are those of the specified call; every publish goes to the queue the per-job resolver gives for its envelope, and to the fixed queue only in a pool without a resolver |
| Workers.BuildPool | src/dr_queues/pipeline/runner.py:176-189 | a pool of a stage has the stage's completed queue as fixed queue and a resolver that looks the output queue up by stage name and partition key |
| Workers.PoolCallbackIsProtocolSteps | src/dr_queues/pipeline/workers.py:99-143 | the call of a pool so built is a run of the protocol's steps and ends where they end; every publish of stage k goes to the queue of position k + 1 for the partition of the job it carries |
| Workers.PublishThenCompletedThenAck | src/dr_queues/pipeline/workers.py:123-138 | a successful call publishes at most once, with the output logged and the row still RUNNING, and acknowledges last, with the row COMPLETED and the updated envelope in it |
| Workers.OtherCallsPublishNothing | src/dr_queues/pipeline/workers.py:106-121 | a held, failed or stopped call publishes nothing and sends one method: an acknowledgement with the row parked, or a return to the queue exactly when the worker is stopping or a plain sink could not record the failure |
| Workers.CallbackIsProtocolSteps | src/dr_queues/pipeline/workers.py:99-138 | an uninterrupted callback of a run's worker is a run of the protocol's steps for hold, failure, success or stop, and ends in exactly the state and messages the callback's contract gives |
| Jobs.WrapperOnlyStamps | src/dr_queues/workflow/pipeline.py:52-61 | the wrapper sets the next step index on a returned envelope and changes nothing else; an exception passes through |
| Workers.MadeHandlersFit | src/dr_queues/workflow/pipeline.py:52-61 | the stamping wrapper meets what the protocol asks of a handler exactly when the wrapped handler keeps the job's identity |
| TerminalTaps.TerminalTap.constructor | src/dr_queues/pipeline/tap.py:25-53 | the cache starts as the log's terminal ids and the tap is done exactly when their number reaches the expected count |
| TerminalTaps.TerminalTap.ReadTerminalJobIds | src/dr_queues/pipeline/tap.py:144-149 | the ids of the run's TERMINAL events |
| TerminalTaps.TerminalTap.OnMessage | src/dr_queues/pipeline/tap.py:97-122 | another run's job or a known one is acknowledged and changes nothing; any other joins the batch, which is flushed exactly when it is full |
| TerminalTaps.TerminalTap.FlushPending | src/dr_queues/pipeline/tap.py:124-139 | an empty batch does nothing; otherwise every row and event is stored before the first acknowledgement, the cache gains the batch's ids, stays within the log's ids and stays equal to them if it was, and done follows the count |
| TerminalTaps.FlushIsProtocolSteps | src/dr_queues/pipeline/tap.py:124-139 | an uninterrupted flush is a run of the protocol's row, event and acknowledgement steps and ends in the state the flush contract gives |
| TerminalTaps.OpeningIsProtocolSteps | src/dr_queues/pipeline/tap.py:51-53 | constructing a tap is the protocol's StartTap and CheckStart: the cache is the log's terminal ids and done follows the count |
| TerminalTaps.ReceiptIsProtocolStep | src/dr_queues/pipeline/tap.py:97-120 | a collecting tap with room can take any message of the queues it watches: another run's job or a known one changes nothing, any other joins the batch |
| TerminalChain.StepKeepsChain | src/dr_queues/pipeline/tap.py:124-139 | every step keeps acknowledged within logged within TERMINAL rows, and each tap's batch progress |
| Progress.FromEvents | src/dr_queues/runtime/models.py:221-238 | started and completed jobs per stage and terminal jobs are exactly those with such an event |
| Progress.ProgressIgnoresOrderAndDuplicates | src/dr_queues/runtime/models.py:221-238 | logs with the same events, in any order and any number, give the same progress |
| Progress.ProgressOfConcatenation | src/dr_queues/runtime/models.py:221-238 | progress of a concatenation is the union of the parts' progress |
| Progress.CountJobStates | src/dr_queues/runtime/models.py:241-245 | an entry for every status with the number of rows in it |
| Progress.CountsAddUp | src/dr_queues/runtime/models.py:241-245 | the counts add up to the number of rows |
| Progress.ReadByRunId | src/dr_queues/runtime/store.py:216-221 | the run's events, in stored order |
| Progress.BuildRunStatus | src/dr_queues/runtime/status.py:76-136 | per stage the number of distinct jobs with a STAGE_STARTED and with a STAGE_OUTPUT event of the run at that stage and their clamped difference, the number of distinct terminal jobs, the expected count, and is_complete exactly when the terminal ids reach it |
| Progress.TargetComplete | src/dr_queues/runtime/status.py:185-199 | "terminal" asks the whole run, another name the first stage so named, and an unknown one is an error |
| Lifecycle.StageWorkerOptions | src/dr_queues/runtime/lifecycle.py:111-125 | reading the options back gives each argument once and every selector, as key=value, in order under its own option |
| Lifecycle.SelectorsReachTheWorker | src/dr_queues/runtime/lifecycle.py:122-125 | a parsed selector list passed on the command line parses to the same list in the worker process |

## Left out

- Broker and database client code, sessions, publish properties, queue snapshots, indexes and query planning.
- JSON and schema validation, uuid generation and ISO time parsing: ids are values, time is an integer clock.
- `created_at`, `updated_at`, `timestamp`, `published_at`, `reason`, `error_type` and `worker_id` fields, which no branch reads.
- A selection of replayable rows is one read in `Store` (the program reads one list per status, so a row that changes status in between may be seen twice or missed); the protocol reads row by row, each read a step of its own, and may read a row twice or not at all.
- The order in which the database lists rows, and sorting of ids in error messages (sets here).
- Changing an envelope in place: envelopes are values. What a raising handler did to its envelope is kept, as the envelope it leaves.
- Seeding by several processes at once: reading the active ids and inserting the batch is one step in the protocol, so seeding is serialized; all that follows it interleaves freely.
- A tap's acknowledgement takes effect when it is sent; a lost one would redeliver a job already recorded.
- Time passing inside one callback of `StageExecution`: its clock stands still there, while the protocol lets time pass between any two steps.
- The flush timer, threads and the stop flag of the tap: the protocol lets a tap flush, stop or crash at any moment.
- `make_seed_jobs`, `parse_workers_arg`, `lane_ids`, `step_names`, `parse_blocked_until`: easy members.
- Worker records, heartbeats, process spawning, run health, blocked-job listing, the CLI and the viewer.
- Which partitions a selective worker is given: the protocol allows any set, so nothing is claimed about partitions that reach a stage later.
- A worker pool with no output queue, in the protocol; the callback's own contract covers it.
- Wait loops (`wait_for_run`): only the tests they poll are modelled.
- DistributedRunIsSequential: nothing is claimed about how often a handler runs or how many TERMINAL events a job has; neither is bounded by the code.
- NoPublishIsDropped: covers the run's own feeding processes and workers; a queue deleted from outside is not modelled.
- DrainTerminates: a plain event sink as the store is excluded, since it requeues failures for ever.
