/** The failure attempt ledger under concurrent recordings (record_job_failure in runtime/store.py). */
module Ledger {
  import opened Jobs
  import opened Documents
  import opened Protocol

  predicate HasEntry(attempts: seq<Attempt>, key: RowKey, number: nat, action: Action) {
    exists i :: 0 <= i < |attempts| && attempts[i].key == key && attempts[i].number == number && attempts[i].action == action
  }

  /** A row counts no more attempts than the ledger holds, and a parked failure has its entry. */
  ghost predicate RowBacked(attempts: seq<Attempt>, key: RowKey, row: Row) {
    && row.attemptCount <= LedgerSize(attempts, key)
    && (row.status == RetryWaiting ==> HasEntry(attempts, key, row.attemptCount, Retry))
    && (row.status == DeadLettered ==> HasEntry(attempts, key, row.attemptCount, DeadLetter))
  }

  ghost predicate RowsBacked(attempts: seq<Attempt>, rows: Rows) {
    forall key :: key in rows ==> RowBacked(attempts, key, rows[key])
  }

  ghost predicate EntriesOk(c: Config, attempts: seq<Attempt>) {
    forall i :: 0 <= i < |attempts| ==> attempts[i].number >= 1 && attempts[i].action == ActionFor(attempts[i].number, c.maxAttempts)
  }

  ghost predicate WorkerBacked(attempts: seq<Attempt>, stage: string, worker: Worker) {
    match worker.phase
    case Counted(job, _, count) => count <= LedgerSize(attempts, KeyOf(job, stage))
    case Inserted(job, _, number, action) =>
      number <= LedgerSize(attempts, KeyOf(job, stage)) && HasEntry(attempts, KeyOf(job, stage), number, action)
    case _ => true
  }

  ghost predicate LedgerInv(c: Config, s: World) {
    && |s.workers| == |c.slots|
    && RowsBacked(s.db.attempts, s.db.rows)
    && EntriesOk(c, s.db.attempts)
    && forall w :: 0 <= w < |s.workers| ==> WorkerBacked(s.db.attempts, c.Name(c.slots[w].stage), s.workers[w])
  }

  lemma LedgerGrows(attempts: seq<Attempt>, e: Attempt)
    ensures forall key {:trigger LedgerSize(attempts + [e], key)} ::
              LedgerSize(attempts + [e], key) == LedgerSize(attempts, key) + if e.key == key then 1 else 0
    ensures forall key, n, action {:trigger HasEntry(attempts + [e], key, n, action)} ::
              HasEntry(attempts, key, n, action) || (e.key == key && e.number == n && e.action == action)
              <==> HasEntry(attempts + [e], key, n, action)
  {
    var more := attempts + [e];
    assert more[..|more| - 1] == attempts;
    forall key, n, action
      ensures HasEntry(attempts, key, n, action) || (e.key == key && e.number == n && e.action == action)
              <==> HasEntry(more, key, n, action)
    {
      if HasEntry(attempts, key, n, action) {
        var i :| 0 <= i < |attempts| && attempts[i].key == key && attempts[i].number == n && attempts[i].action == action;
        assert more[i] == attempts[i];
      }
      if HasEntry(more, key, n, action) {
        var i :| 0 <= i < |more| && more[i].key == key && more[i].number == n && more[i].action == action;
        assert i < |attempts| ==> more[i] == attempts[i];
      }
      assert more[|attempts|] == e;
    }
  }

  /** Dead-lettering at a number means the ledger has reached the limit. */
  lemma DeadLetteredReachedLimit(c: Config, attempts: seq<Attempt>, key: RowKey, row: Row)
    requires EntriesOk(c, attempts) && RowBacked(attempts, key, row) && row.status == DeadLettered
    ensures LedgerSize(attempts, key) >= c.maxAttempts
  {
    var i :| 0 <= i < |attempts| && attempts[i].key == key && attempts[i].number == row.attemptCount && attempts[i].action == DeadLetter;
    assert attempts[i].action == ActionFor(attempts[i].number, c.maxAttempts);
  }

  /** A write that keeps the count and does not park a failure keeps the rows backed. */
  lemma OtherWritesKeepBacking(attempts: seq<Attempt>, before: Rows, after: Rows, key: RowKey)
    requires RowsBacked(attempts, before)
    requires key in after && after == before[key := after[key]]
    requires after[key].attemptCount == (if key in before then before[key].attemptCount else 0)
    requires after[key].status != RetryWaiting && after[key].status != DeadLettered
    ensures RowsBacked(attempts, after)
  {
    hide HasEntry;
  }

  lemma AddAttemptKeepsLedger(c: Config, s: World, w: nat)
    requires LedgerInv(c, s) && WorkerCan(c, s, w, AddAttempt)
    ensures LedgerInv(c, WorkerDoes(c, s, w, AddAttempt))
  {
    hide LedgerSize, HasEntry;
    var me := s.workers[w];
    var stage := c.Name(c.slots[w].stage);
    var n := me.phase.count + 1;
    var e := Attempt(KeyOf(me.phase.job, stage), me.phase.job.partitionKey, me.phase.job.targetTags, n, ActionFor(n, c.maxAttempts), me.phase.detail);
    assert WorkerBacked(s.db.attempts, stage, me);
    LedgerGrows(s.db.attempts, e);
    var s' := WorkerDoes(c, s, w, AddAttempt);
    assert s'.db.attempts == s.db.attempts + [e];
    forall v | 0 <= v < |s.workers| ensures WorkerBacked(s'.db.attempts, c.Name(c.slots[v].stage), s'.workers[v]) {
      assert WorkerBacked(s.db.attempts, c.Name(c.slots[v].stage), s.workers[v]);
    }
    forall key | key in s.db.rows ensures RowBacked(s'.db.attempts, key, s.db.rows[key]) {
      assert RowBacked(s.db.attempts, key, s.db.rows[key]);
    }
  }

  lemma RecordFailureKeepsLedger(c: Config, s: World, w: nat)
    requires LedgerInv(c, s) && WorkerCan(c, s, w, RecordFailure)
    ensures LedgerInv(c, WorkerDoes(c, s, w, RecordFailure))
  {
    hide LedgerSize, HasEntry;
    var me := s.workers[w];
    assert WorkerBacked(s.db.attempts, c.Name(c.slots[w].stage), me);
  }

  lemma WorkerKeepsLedger(c: Config, s: World, w: nat, a: WorkerAction)
    requires LedgerInv(c, s) && WorkerCan(c, s, w, a)
    ensures LedgerInv(c, WorkerDoes(c, s, w, a))
  {
    hide LedgerSize, HasEntry, ActiveHold, EntriesOk, RowsBacked;
    var me := s.workers[w];
    var stage := c.Name(c.slots[w].stage);
    assert WorkerBacked(s.db.attempts, stage, me);
    match a
    case AddAttempt => AddAttemptKeepsLedger(c, s, w);
    case RecordFailure => RecordFailureKeepsLedger(c, s, w);
    case WriteHeld => OtherWritesKeepBacking(s.db.attempts, s.db.rows, WorkerDoes(c, s, w, a).db.rows, KeyOf(me.phase.job, stage));
    case WriteRunning => OtherWritesKeepBacking(s.db.attempts, s.db.rows, WorkerDoes(c, s, w, a).db.rows, KeyOf(me.phase.job, stage));
    case WriteCompleted => OtherWritesKeepBacking(s.db.attempts, s.db.rows, WorkerDoes(c, s, w, a).db.rows, KeyOf(me.phase.job, stage));
    case _ =>
  }

  lemma StepKeepsLedger(c: Config, s: World, step: Step)
    requires LedgerInv(c, s) && Enabled(c, s, step)
    ensures LedgerInv(c, Apply(c, s, step))
  {
    hide WorkerDoes, LedgerSize, HasEntry, EntriesOk, RowsBacked, TerminalIds, ExpectedCount, ActiveIds, WorkerBacked;
    match step
    case AtWorker(w, a) => WorkerKeepsLedger(c, s, w, a);
    case AtTap(t, a) =>
      TapFrame(c, s, t, a);
      if a.WriteTerminalRow? {
        var m := s.taps[t].held[s.taps[t].phase.next];
        OtherWritesKeepBacking(s.db.attempts, s.db.rows, TapDoes(c, s, t, a).db.rows, KeyOf(m.job, "terminal"));
      }
    case AtFeeder(f, a) =>
      FeederFrame(c, s, f, a);
      if a.MarkNext? {
        var item := s.feeders[f].todo[0];
        OtherWritesKeepBacking(s.db.attempts, s.db.rows, FeedDoes(c, s, f, a).db.rows, KeyOf(item.job, c.Name(item.pos)));
      }
    case AtOperator(a) => OperatorFrame(c, s, a);
  }
}
