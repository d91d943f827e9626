/** The stored documents and the effect of each single write on them (runtime/models.py, runtime/store.py). */
module Documents {
  import opened Common
  import opened Targeting
  import opened Jobs

  // ---------------------------------------------------------------- job states

  datatype Status = Pending | Running | Completed | RetryWaiting | Held | Failed | DeadLettered | Terminal

  datatype RowKey = RowKey(runId: string, jobId: string, stage: string)

  datatype Row = Row(
    status: Status,
    partitionKey: string,
    targetTags: Tags,
    queueName: string,
    job: Job,
    attemptCount: nat,
    notBefore: Option<int>,
    heldUntil: Option<int>,
    holdId: Option<nat>,
    failureDetail: Option<string>)

  /** The optional fields an update may set or unset. */
  datatype Field = NotBefore | HeldUntil | HoldId | FailureDetail

  /** `extra_fields`: a field is absent from the update, or set (possibly to null). */
  datatype Extra = Extra(
    attemptCount: Option<nat>,
    notBefore: Option<Option<int>>,
    heldUntil: Option<Option<int>>,
    holdId: Option<Option<nat>>,
    failureDetail: Option<Option<string>>)

  const NO_EXTRA: Extra := Extra(None, None, None, None, None)

  /** The database refuses an update that sets and unsets one field. */
  predicate Conflicts(extra: Extra, clear: set<Field>) {
    || (extra.notBefore.Some? && NotBefore in clear)
    || (extra.heldUntil.Some? && HeldUntil in clear)
    || (extra.holdId.Some? && HoldId in clear)
    || (extra.failureDetail.Some? && FailureDetail in clear)
  }

  function Merge<T>(set_: Option<Option<T>>, cleared: bool, before: Option<T>): Option<T> {
    if set_.Some? then set_.value else if cleared then None else before
  }

  type Rows = map<RowKey, Row>

  function KeyOf(job: Job, stage: string): RowKey {
    RowKey(job.runId, job.jobId, stage)
  }

  /** One atomic upsert of the row of (run, job, stage). */
  function Upsert(rows: Rows, job: Job, stage: string, status: Status, queue: string, extra: Extra, clear: set<Field>): Rows
    requires !Conflicts(extra, clear)
  {
    var key := KeyOf(job, stage);
    var before := if key in rows then Some(rows[key]) else None;
    rows[key := Row(
      status, job.partitionKey, job.targetTags, queue, job,
      if extra.attemptCount.Some? then extra.attemptCount.value else if before.Some? then before.value.attemptCount else 0,
      Merge(extra.notBefore, NotBefore in clear, if before.Some? then before.value.notBefore else None),
      Merge(extra.heldUntil, HeldUntil in clear, if before.Some? then before.value.heldUntil else None),
      Merge(extra.holdId, HoldId in clear, if before.Some? then before.value.holdId else None),
      Merge(extra.failureDetail, FailureDetail in clear, if before.Some? then before.value.failureDetail else None))]
  }

  // ---------------------------------------------------------------- the other collections

  datatype Action = Retry | DeadLetter

  datatype Attempt = Attempt(key: RowKey, partitionKey: string, targetTags: Tags, number: nat, action: Action, detail: string)

  datatype EventKind = StageStarted | StageOutput | TerminalEvent

  datatype Payload =
    | StartedAt(stepIndex: int)
    | OutputOf(stepIndex: int, stepOutputs: map<string, Data>, stepRecord: Option<Data>)
    | Whole(job: Job)

  datatype Event = Event(runId: string, jobId: string, lane: string, stage: string, kind: EventKind, payload: Payload)

  datatype BatchStatus = Created | Published | FailedBatch

  datatype SeedBatch = SeedBatch(runId: string, jobIds: seq<string>, count: nat, status: BatchStatus)

  datatype Hold = Hold(holdId: nat, runId: string, selectors: seq<Selector>, blockedUntil: Option<int>, cleared: bool)

  datatype Db = Db(
    rows: Rows,
    attempts: seq<Attempt>,
    events: seq<Event>,
    batches: seq<SeedBatch>,
    holds: seq<Hold>)

  const EMPTY_DB: Db := Db(map[], [], [], [], [])

  // ---------------------------------------------------------------- single writes

  function MarkPending(db: Db, job: Job, stage: string, queue: string): Db {
    db.(rows := Upsert(db.rows, job, stage, Pending, queue, NO_EXTRA, {NotBefore, HeldUntil, HoldId, FailureDetail}))
  }

  function MarkRunning(db: Db, job: Job, stage: string, queue: string): Db {
    db.(rows := Upsert(db.rows, job, stage, Running, queue, NO_EXTRA, {NotBefore, HeldUntil, HoldId, FailureDetail}))
  }

  function MarkCompleted(db: Db, job: Job, stage: string, queue: string): Db {
    db.(rows := Upsert(db.rows, job, stage, Completed, queue, NO_EXTRA, {NotBefore, HeldUntil, HoldId}))
  }

  function MarkTerminal(db: Db, job: Job, stage: string, queue: string): Db {
    db.(rows := Upsert(db.rows, job, stage, Terminal, queue, NO_EXTRA, {NotBefore, HeldUntil, HoldId}))
  }

  function HoldJob(db: Db, job: Job, stage: string, queue: string, hold: Hold): Db {
    db.(rows := Upsert(db.rows, job, stage, Held, queue,
                       NO_EXTRA.(heldUntil := Some(hold.blockedUntil), holdId := Some(Some(hold.holdId))),
                       {NotBefore, FailureDetail}))
  }

  function Append(db: Db, event: Event): Db {
    db.(events := db.events + [event])
  }

  /** The number of ledger entries of one (run, job, stage). */
  function LedgerSize(attempts: seq<Attempt>, key: RowKey): nat {
    if attempts == [] then 0
    else LedgerSize(attempts[..|attempts| - 1], key) + if attempts[|attempts| - 1].key == key then 1 else 0
  }

  function ActionFor(number: nat, maxAttempts: int): Action {
    if number >= maxAttempts then DeadLetter else Retry
  }

  function InsertAttempt(db: Db, job: Job, stage: string, number: nat, maxAttempts: int, detail: string): Db {
    db.(attempts := db.attempts + [
      Attempt(KeyOf(job, stage), job.partitionKey, job.targetTags, number, ActionFor(number, maxAttempts), detail)])
  }

  function WriteFailure(db: Db, job: Job, stage: string, queue: string, number: nat, action: Action, detail: string, retryAt: int): Db {
    db.(rows := Upsert(db.rows, job, stage, if action == DeadLetter then DeadLettered else RetryWaiting, queue,
                       NO_EXTRA.(attemptCount := Some(number),
                                 notBefore := Some(if action == DeadLetter then None else Some(retryAt)),
                                 failureDetail := Some(Some(detail))),
                       {HeldUntil, HoldId}))
  }

  // ---------------------------------------------------------------- events

  function StartedEvent(job: Job, stage: string): Event {
    Event(job.runId, job.jobId, job.lane, stage, StageStarted, StartedAt(job.stepIndex))
  }

  function OutputEvent(job: Job, stage: string): Event {
    Event(job.runId, job.jobId, job.lane, stage, StageOutput,
          OutputOf(job.stepIndex, job.stepOutputs, if stage in job.stepRecords then Some(job.stepRecords[stage]) else None))
  }

  function TerminalOf(job: Job, stage: string): Event {
    Event(job.runId, job.jobId, job.lane, stage, TerminalEvent, Whole(job))
  }

  predicate Logged(events: seq<Event>, runId: string, jobId: string, stage: string, kind: EventKind) {
    exists i :: 0 <= i < |events| && events[i].runId == runId && events[i].jobId == jobId
                && events[i].stage == stage && events[i].kind == kind
  }

  /** The ids `TerminalTap._read_terminal_job_ids` and `EventProgress` collect: the stage name is not looked at. */
  function TerminalIds(events: seq<Event>, runId: string): set<string> {
    set i | 0 <= i < |events| && events[i].runId == runId && events[i].kind == TerminalEvent :: events[i].jobId
  }

  // ---------------------------------------------------------------- holds

  predicate Blocks(hold: Hold, runId: string, tags: Tags, now: int) {
    && hold.runId == runId && !hold.cleared
    && (hold.blockedUntil.None? || hold.blockedUntil.value > now)
    && TargetMatches(tags, hold.selectors, [])
  }

  function ActiveHold(holds: seq<Hold>, runId: string, tags: Tags, now: int): Option<Hold> {
    if holds == [] then None
    else if Blocks(holds[0], runId, tags, now) then Some(holds[0])
    else ActiveHold(holds[1..], runId, tags, now)
  }

  function SetHold(db: Db, runId: string, selectors: seq<Selector>, blockedUntil: Option<int>): Db {
    db.(holds := db.holds + [Hold(|db.holds|, runId, selectors, blockedUntil, false)])
  }

  predicate SameHold(hold: Hold, runId: string, selectors: seq<Selector>) {
    hold.runId == runId && hold.selectors == selectors && !hold.cleared
  }

  function SameHoldCount(holds: seq<Hold>, runId: string, selectors: seq<Selector>): nat {
    if holds == [] then 0
    else SameHoldCount(holds[..|holds| - 1], runId, selectors) + if SameHold(holds[|holds| - 1], runId, selectors) then 1 else 0
  }

  /** The update of one hold document; `clear_target_holds` makes one per hold, in no fixed order. */
  function ClearHold(db: Db, i: nat, runId: string, selectors: seq<Selector>): Db {
    if i < |db.holds| && SameHold(db.holds[i], runId, selectors) then db.(holds := db.holds[i := db.holds[i].(cleared := true)]) else db
  }

  function ClearHolds(db: Db, runId: string, selectors: seq<Selector>): Db {
    db.(holds := seq(|db.holds|, i requires 0 <= i < |db.holds| =>
      if SameHold(db.holds[i], runId, selectors) then db.holds[i].(cleared := true) else db.holds[i]))
  }

  /** Clearing hold by hold, in any order that reaches each of them, is clearing them all. */
  function ClearEach(db: Db, order: seq<nat>, runId: string, selectors: seq<Selector>): Db
    decreases |order|
  {
    if order == [] then db else ClearEach(ClearHold(db, order[0], runId, selectors), order[1..], runId, selectors)
  }

  lemma {:induction false} ClearingOneByOne(db: Db, order: seq<nat>, runId: string, selectors: seq<Selector>, i: nat)
    requires i < |db.holds|
    ensures var after := ClearEach(db, order, runId, selectors);
            |after.holds| == |db.holds|
            && after.holds[i] == if i in order && SameHold(db.holds[i], runId, selectors) then db.holds[i].(cleared := true) else db.holds[i]
    decreases |order|
  {
    if order != [] {
      ClearingOneByOne(ClearHold(db, order[0], runId, selectors), order[1..], runId, selectors, i);
    }
  }

  /** The hold found is the first one that blocks, and nothing is found exactly when none blocks. */
  lemma {:induction false} ActiveHoldIsFirst(holds: seq<Hold>, runId: string, tags: Tags, now: int)
    ensures ActiveHold(holds, runId, tags, now).None? <==> forall i :: 0 <= i < |holds| ==> !Blocks(holds[i], runId, tags, now)
    ensures ActiveHold(holds, runId, tags, now).Some? ==>
              exists i :: 0 <= i < |holds| && ActiveHold(holds, runId, tags, now) == Some(holds[i])
                && Blocks(holds[i], runId, tags, now) && forall j :: 0 <= j < i ==> !Blocks(holds[j], runId, tags, now)
  {
    if holds != [] && !Blocks(holds[0], runId, tags, now) {
      var rest := holds[1..];
      ActiveHoldIsFirst(rest, runId, tags, now);
      assert forall i :: 0 <= i < |rest| ==> rest[i] == holds[i + 1];
      if ActiveHold(rest, runId, tags, now).Some? {
        var i :| 0 <= i < |rest| && ActiveHold(rest, runId, tags, now) == Some(rest[i])
          && Blocks(rest[i], runId, tags, now) && forall j :: 0 <= j < i ==> !Blocks(rest[j], runId, tags, now);
        assert holds[i + 1] == rest[i];
        forall j | 0 <= j < i + 1 ensures !Blocks(holds[j], runId, tags, now) {
          if j > 0 { assert holds[j] == rest[j - 1]; }
        }
      } else {
        forall i | 0 <= i < |holds| ensures !Blocks(holds[i], runId, tags, now) {
          if i > 0 { assert holds[i] == rest[i - 1]; }
        }
      }
    }
  }

  /** Clearing with any ordering of the selector texts a hold was set with clears that hold, and only holds with that list. */
  lemma ClearingIsCanonical(db: Db, runId: string, setWith: seq<string>, clearWith: seq<string>, i: nat)
    requires i < |db.holds|
    requires multiset(setWith) == multiset(clearWith)
    requires ParseSelectors(setWith).Ok? && db.holds[i].runId == runId && db.holds[i].selectors == ParseSelectors(setWith).value
    ensures ParseSelectors(clearWith).Ok?
    ensures var after := ClearHolds(db, runId, ParseSelectors(clearWith).value);
            && after.holds[i].cleared
            && (forall tags, now :: !Blocks(after.holds[i], runId, tags, now))
            && forall k :: 0 <= k < |db.holds| && after.holds[k] != db.holds[k] ==>
                 db.holds[k].selectors == ParseSelectors(clearWith).value && db.holds[k].runId == runId
  {
    SelectorListsAreCanonical(setWith, clearWith);
  }

  // ---------------------------------------------------------------- seed batches

  predicate Active(batch: SeedBatch, runId: string) {
    batch.runId == runId && batch.status != FailedBatch
  }

  /** The ids of the batches that count: created or published. */
  function ActiveIds(batches: seq<SeedBatch>, runId: string): set<string> {
    set b, id | 0 <= b < |batches| && id in batches[b].jobIds && Active(batches[b], runId) :: id
  }

  function ExpectedCount(batches: seq<SeedBatch>, runId: string): nat {
    if batches == [] then 0
    else ExpectedCount(batches[..|batches| - 1], runId)
         + if Active(batches[|batches| - 1], runId) then batches[|batches| - 1].count else 0
  }

  predicate NoDuplicates(ids: seq<string>) {
    forall i, j :: 0 <= i < j < |ids| ==> ids[i] != ids[j]
  }

  function AddBatch(db: Db, runId: string, ids: seq<string>): Db {
    db.(batches := db.batches + [SeedBatch(runId, ids, |ids|, Created)])
  }

  function SetBatchStatus(db: Db, b: nat, status: BatchStatus): Db
    requires b < |db.batches|
  {
    db.(batches := db.batches[b := db.batches[b].(status := status)])
  }
}
