/** Which optional fields a job-state row carries in each status, over every interleaving of writers. */
module RowShape {
  import opened Common
  import opened Manifest
  import opened Jobs
  import opened Documents
  import opened Protocol
  import opened Routing

  /** Pipeline rows are never TERMINAL and terminal rows are nothing else; no writer ever stores FAILED. */
  ghost predicate ShapeOk(row: Row, terminal: bool) {
    && (row.status == Terminal <==> terminal)
    && row.status != Failed
    && (row.notBefore.Some? <==> row.status == RetryWaiting)
    && (row.holdId.Some? <==> row.status == Held)
    && (row.heldUntil.Some? ==> row.status == Held)
    && (row.failureDetail.Some? ==> row.status in {RetryWaiting, DeadLettered, Completed})
    && (row.status in {RetryWaiting, DeadLettered} ==> row.failureDetail.Some?)
  }

  ghost predicate ShapeInv(rows: Rows) {
    forall key :: key in rows ==> ShapeOk(rows[key], key.stage == TERMINAL_STAGE)
  }

  lemma PendingKeepsShape(db: Db, job: Job, stage: string, queue: string)
    requires ShapeInv(db.rows) && stage != TERMINAL_STAGE
    ensures ShapeInv(MarkPending(db, job, stage, queue).rows)
  {
  }

  lemma RunningKeepsShape(db: Db, job: Job, stage: string, queue: string)
    requires ShapeInv(db.rows) && stage != TERMINAL_STAGE
    ensures ShapeInv(MarkRunning(db, job, stage, queue).rows)
  {
  }

  lemma CompletedKeepsShape(db: Db, job: Job, stage: string, queue: string)
    requires ShapeInv(db.rows) && stage != TERMINAL_STAGE
    ensures ShapeInv(MarkCompleted(db, job, stage, queue).rows)
  {
  }

  lemma HoldKeepsShape(db: Db, job: Job, stage: string, queue: string, hold: Hold)
    requires ShapeInv(db.rows) && stage != TERMINAL_STAGE
    ensures ShapeInv(HoldJob(db, job, stage, queue, hold).rows)
  {
  }

  lemma FailureKeepsShape(db: Db, job: Job, stage: string, queue: string, number: nat, action: Action, detail: string, retryAt: int)
    requires ShapeInv(db.rows) && stage != TERMINAL_STAGE
    ensures ShapeInv(WriteFailure(db, job, stage, queue, number, action, detail, retryAt).rows)
  {
  }

  lemma TerminalWriteKeepsShape(db: Db, job: Job, queue: string)
    requires ShapeInv(db.rows)
    ensures ShapeInv(MarkTerminal(db, job, TERMINAL_STAGE, queue).rows)
  {
  }

  /** If a stage were called "terminal", its completed rows would overwrite terminal ones: the name must stay reserved. */
  lemma ReservedNameMatters(db: Db, job: Job, queue: string)
    ensures var first := MarkTerminal(db, job, TERMINAL_STAGE, queue);
            var then_ := MarkRunning(first, job, TERMINAL_STAGE, queue);
            && first.rows[KeyOf(job, TERMINAL_STAGE)].status == Terminal
            && then_.rows[KeyOf(job, TERMINAL_STAGE)].status == Running
  {
  }

  lemma StageIsNotTerminal(c: Config, k: nat)
    requires c.Valid() && k < c.N()
    ensures c.Name(k) != TERMINAL_STAGE
  {
  }

  lemma WorkerKeepsShape(c: Config, s: World, w: nat, a: WorkerAction)
    requires c.Valid() && ShapeInv(s.db.rows) && WorkerCan(c, s, w, a)
    ensures ShapeInv(WorkerDoes(c, s, w, a).db.rows)
  {
    hide ShapeInv, Upsert, ActiveHold, LedgerSize;
    StageIsNotTerminal(c, c.slots[w].stage);
    var me := s.workers[w];
    var stage := c.Name(c.slots[w].stage);
    match a
    case WriteHeld => HoldKeepsShape(s.db, me.phase.job, stage, me.unacked.value.queue, me.phase.hold);
    case WriteRunning => RunningKeepsShape(s.db, me.phase.job, stage, me.unacked.value.queue);
    case WriteCompleted => CompletedKeepsShape(s.db, me.phase.job, stage, me.unacked.value.queue);
    case RecordFailure =>
      FailureKeepsShape(s.db, me.phase.job, stage, me.unacked.value.queue,
                        me.phase.number, me.phase.action, me.phase.detail, s.now + c.retryDelay);
    case _ =>
  }

  lemma StepKeepsShape(c: Config, s: World, step: Step)
    requires c.Valid() && RoutingInv(c, s) && ShapeInv(s.db.rows) && Enabled(c, s, step)
    ensures ShapeInv(Apply(c, s, step).db.rows)
  {
    hide WorkerDoes, FeedDoes, WorkerOk, MessageOk, TapOk, FeederOk, RowsOk, ShapeInv, Upsert, TerminalIds, ExpectedCount, c.Valid;
    match step
    case AtWorker(w, a) => WorkerKeepsShape(c, s, w, a);
    case AtTap(t, a) =>
      if a.WriteTerminalRow? {
        var m := s.taps[t].held[s.taps[t].phase.next];
        TerminalWriteKeepsShape(s.db, m.job, m.queue);
      }
    case AtFeeder(f, a) =>
      FeederKeepsShape(c, s, f, a);
    case AtOperator(a) =>
  }

  lemma FeederKeepsShape(c: Config, s: World, f: nat, a: FeedAction)
    requires c.Valid() && RoutingInv(c, s) && ShapeInv(s.db.rows) && FeedCan(c, s, f, a)
    ensures ShapeInv(FeedDoes(c, s, f, a).db.rows)
  {
    hide WorkerOk, MessageOk, TapOk, RowsOk, ShapeInv, Upsert, ActiveIds, c.Valid;
    if a.MarkNext? {
      assert FeederOk(c, s.declared, s.feeders[f]);
      var item := s.feeders[f].todo[0];
      StageIsNotTerminal(c, item.pos);
      PendingKeepsShape(s.db, item.job, c.Name(item.pos),
                        c.manifest.StageInputQueue(c.Name(item.pos), item.job.partitionKey).value);
    }
  }
}
