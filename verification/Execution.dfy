/** Running one delivered job through a stage (pipeline/execution.py), with every store write in program order. */
module StageExecutions {
  import opened Common
  import opened Targeting
  import opened Jobs
  import opened Documents
  import opened Store

  datatype StageAction = ActCompleted | ActFailedRecorded | ActHeld | ActRedeliver

  datatype StageResult = StageResult(action: StageAction, job: Job)
  {
    predicate ShouldAck() {
      action in {ActCompleted, ActFailedRecorded, ActHeld}
    }

    predicate ShouldForward() {
      action == ActCompleted
    }
  }

  /** A stage's settings. `durable` tells a run store from a plain event sink, which keeps no rows, holds or failures. */
  datatype StageSettings = StageSettings(name: string, durable: bool, maxAttempts: int, retryDelay: int)

  datatype Outcome = Outcome(result: StageResult, db: Db)

  function Running(stage: StageSettings, db: Db, job: Job, queue: string): Db {
    if stage.durable then MarkRunning(db, job, stage.name, queue) else db
  }

  /** The hold that stops a job at this moment. */
  function HoldFor(stage: StageSettings, db: Db, now: int, job: Job): Option<Hold> {
    if stage.durable then ActiveHold(db.holds, job.runId, job.targetTags, now) else None
  }

  /** What one call does when nothing interrupts it or interleaves with it. */
  function RunEffect(stage: StageSettings, db: Db, now: int, envelope: Job, queue: string, handler: Handler): Outcome {
    var job := envelope.Resolve();
    var hold := HoldFor(stage, db, now, job);
    if hold.Some? then
      Outcome(StageResult(ActHeld, job), Documents.HoldJob(db, job, stage.name, queue, hold.value))
    else
      var started := Documents.Append(Running(stage, db, job, queue), StartedEvent(job, stage.name));
      match handler(job)
      case Raised(left, detail) =>
        if stage.durable then
          Outcome(StageResult(ActFailedRecorded, left),
                  RecordFailureIn(started, left, stage.name, queue, detail, stage.maxAttempts, now + stage.retryDelay))
        else Outcome(StageResult(ActRedeliver, left), started)
      case Returned(updated) =>
        Outcome(StageResult(ActCompleted, updated), Documents.Append(started, OutputEvent(updated, stage.name)))
  }

  class StageExecution {
    const store: RunStore
    const stage: StageSettings

    constructor (store: RunStore, stage: StageSettings)
      ensures this.store == store && this.stage == stage
    {
      this.store, this.stage := store, stage;
    }

    /** The hold check, the held row or the running row and STAGE_STARTED, the handler, then its record. */
    method Run(envelope: Job, queue: string, handler: Handler) returns (result: StageResult)
      modifies store
      ensures store.clock == old(store.clock)
      ensures Outcome(result, store.Contents()) == RunEffect(stage, old(store.Contents()), store.clock, envelope, queue, handler)
    {
      var job := envelope.Resolve();
      if stage.durable {
        var hold := store.ActiveHoldForTags(job.runId, job.targetTags);
        if hold.Some? {
          var _ := store.HoldJob(job, stage.name, queue, hold.value);
          return StageResult(ActHeld, job);
        }
        var _ := store.MarkJobRunning(job, stage.name, queue);
      }
      store.Append(StartedEvent(job, stage.name));
      match handler(job) {
        case Raised(left, detail) =>
          if !stage.durable {
            return StageResult(ActRedeliver, left);
          }
          var _ := store.RecordJobFailure(left, stage.name, queue, detail, stage.maxAttempts, stage.retryDelay);
          return StageResult(ActFailedRecorded, left);
        case Returned(updated) =>
          store.Append(OutputEvent(updated, stage.name));
          return StageResult(ActCompleted, updated);
      }
    }

    method RecordCompleted(job: Job, queue: string)
      modifies store
      ensures store.clock == old(store.clock)
      ensures store.Contents() == if stage.durable then MarkCompleted(old(store.Contents()), job, stage.name, queue) else old(store.Contents())
    {
      if stage.durable {
        var _ := store.MarkJobCompleted(job, stage.name, queue);
      }
    }

    /** Through the store's batch writer if it has one, else one event at a time. */
    method RecordTerminalBatch(batch: seq<Delivery>)
      modifies store
      ensures store.clock == old(store.clock)
      ensures var before := old(store.Contents());
              store.Contents() == if stage.durable then RecordTerminalsIn(before, batch, stage.name)
                                  else before.(events := before.events + TerminalEvents(batch, stage.name))
    {
      if stage.durable {
        store.RecordTerminalBatch(batch, stage.name);
        return;
      }
      ghost var before := store.events;
      for i := 0 to |batch|
        invariant store.Contents() == old(store.Contents()).(events := before + TerminalEvents(batch, stage.name)[..i])
        invariant store.clock == old(store.clock)
      {
        store.Append(TerminalOf(batch[i].job, stage.name));
      }
      assert TerminalEvents(batch, stage.name)[..|batch|] == TerminalEvents(batch, stage.name);
    }
  }

  // ---------------------------------------------------------------- what a call means

  /** A job is held exactly when some hold blocks it, and then the handler plays no part. */
  lemma HandlerNeedsClearance(stage: StageSettings, db: Db, now: int, envelope: Job, queue: string, handler: Handler, other: Handler)
    requires stage.durable
    ensures var job := envelope.Resolve();
            && (RunEffect(stage, db, now, envelope, queue, handler).result.action == ActHeld
                <==> exists i :: 0 <= i < |db.holds| && Blocks(db.holds[i], job.runId, job.targetTags, now))
            && (RunEffect(stage, db, now, envelope, queue, handler).result.action == ActHeld
                ==> RunEffect(stage, db, now, envelope, queue, handler) == RunEffect(stage, db, now, envelope, queue, other))
            && (RunEffect(stage, db, now, envelope, queue, handler).result.action == ActHeld
                ==> RunEffect(stage, db, now, envelope, queue, handler).db.events == db.events)
  {
    var job := envelope.Resolve();
    ActiveHoldIsFirst(db.holds, job.runId, job.targetTags, now);
  }

  /** The statuses a row can be left in by a call that is not forwarded. */
  predicate Parks(status: Status) {
    status in {Held, RetryWaiting, DeadLettered}
  }

  /**
   * A delivery is acknowledged without being forwarded exactly when the job's row is left where replay finds it, and
   * forwarded exactly when the call logged its start and then its output. With a plain sink a failure is redelivered.
   */
  lemma AcknowledgedMeansRecorded(stage: StageSettings, db: Db, now: int, envelope: Job, queue: string, handler: Handler)
    requires match handler(envelope.Resolve())
             case Returned(after) => envelope.Resolve().KeepsIdentity(after)
             case Raised(after, _) => envelope.Resolve().KeepsIdentity(after)
    ensures var out := RunEffect(stage, db, now, envelope, queue, handler);
            var key := KeyOf(envelope, stage.name);
            && (out.result.ShouldForward() <==>
                  handler(envelope.Resolve()).Returned? && HoldFor(stage, db, now, envelope.Resolve()).None?)
            && (out.result.ShouldForward() ==>
                  out.db.events == db.events + [StartedEvent(envelope.Resolve(), stage.name), OutputEvent(out.result.job, stage.name)])
            && (stage.durable ==>
                  && out.result.ShouldAck() && key in out.db.rows
                  && out.db.rows[key].job == (if out.result.ShouldForward() then envelope.Resolve() else out.result.job)
                  && (Parks(out.db.rows[key].status) <==> !out.result.ShouldForward())
                  && (out.result.ShouldForward() ==> out.db.rows[key].status == Status.Running)
                  && forall other :: other in db.rows && other != key ==> other in out.db.rows && out.db.rows[other] == db.rows[other])
            && (!stage.durable ==>
                  && out.db.rows == db.rows && out.db.attempts == db.attempts
                  && (out.result.ShouldAck() <==> handler(envelope.Resolve()).Returned?))
  {
    hide ActiveHold, LedgerSize;
    var job := envelope.Resolve();
    var out := RunEffect(stage, db, now, envelope, queue, handler);
    if out.result.ShouldForward() {
      assert out.db.events == (db.events + [StartedEvent(job, stage.name)]) + [OutputEvent(out.result.job, stage.name)];
    }
  }
}
