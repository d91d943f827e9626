/** When counting terminal jobs tells the truth about the seeded ones, over whole runs. */
module Completion {
  import opened Common
  import opened Manifest
  import opened Jobs
  import opened Documents
  import opened Protocol
  import opened Routing
  import opened TerminalChain
  import opened Counting
  import opened Frontier

  function ItemIds(items: seq<Item>): set<string> {
    set i | 0 <= i < |items| :: items[i].job.jobId
  }

  function FeederIds(feeder: Feeder): set<string> {
    match feeder
    case Resting => {}
    case Reading(todo) => ItemIds(todo)
    case Feeding(_, _, todo, marked) => ItemIds(todo) + ItemIds(marked)
  }

  function ActiveJobs(c: Config, s: World): set<string> {
    ActiveIds(s.db.batches, c.Run())
  }

  /** Seeding reports a failure only while none of the batch's jobs was published or is being replayed, and PENDING rows are replayed only for active jobs. */
  ghost predicate FailsCleanly(c: Config, s: World, step: Step) {
    Enabled(c, s, step) && step.AtFeeder? ==>
      match step.feed
      case FailFeed =>
        var b := s.feeders[step.f].batch;
        b.Some? ==>
          forall id :: id in s.db.batches[b.value].jobIds ==>
            && id !in s.reach
            && forall g :: 0 <= g < |s.feeders| && g != step.f ==> id !in FeederIds(s.feeders[g])
      case ReadRow(jobId, pos) => s.db.rows[c.Key(jobId, pos)].status == Pending ==> jobId in ActiveJobs(c, s)
      case _ => true
  }

  /** Only jobs that were published have rows past PENDING. */
  ghost predicate RowsReached(c: Config, s: World) {
    forall j, k: nat {:trigger c.Key(j, k)} ::
      k <= c.N() && c.Key(j, k) in s.db.rows && s.db.rows[c.Key(j, k)].status != Pending ==> j in s.reach
  }

  /** No job that is queued, recorded or being fed is outside the active batches. */
  ghost predicate NoEscape(c: Config, s: World) {
    && s.reach.Keys <= ActiveJobs(c, s)
    && RowsReached(c, s)
    && forall f :: 0 <= f < |s.feeders| ==> FeederIds(s.feeders[f]) <= ActiveJobs(c, s)
  }

  lemma AddBatchActivates(c: Config, s: World, ids: seq<string>)
    ensures ActiveIds(AddBatch(s.db, c.Run(), ids).batches, c.Run()) == ActiveJobs(c, s) + IdSet(ids)
  {
    var after := AddBatch(s.db, c.Run(), ids).batches;
    ActiveIdsSplit(after, c.Run());
    assert after[..|after| - 1] == s.db.batches;
  }

  lemma PublishingKeepsActive(db: Db, b: nat, runId: string)
    requires b < |db.batches| && db.batches[b].status == Created
    ensures ActiveIds(SetBatchStatus(db, b, Published).batches, runId) == ActiveIds(db.batches, runId)
  {
    var after := SetBatchStatus(db, b, Published).batches;
    forall id | id in ActiveIds(db.batches, runId) ensures id in ActiveIds(after, runId) {
      var x :| 0 <= x < |db.batches| && id in db.batches[x].jobIds && Active(db.batches[x], runId);
      assert id in after[x].jobIds && Active(after[x], runId);
    }
    forall id | id in ActiveIds(after, runId) ensures id in ActiveIds(db.batches, runId) {
      var x :| 0 <= x < |after| && id in after[x].jobIds && Active(after[x], runId);
      assert id in db.batches[x].jobIds && Active(db.batches[x], runId);
    }
  }

  lemma FailingDropsOnlyItsOwn(db: Db, b: nat, runId: string)
    requires b < |db.batches|
    ensures forall id :: id in ActiveIds(db.batches, runId) && id !in db.batches[b].jobIds ==>
              id in ActiveIds(SetBatchStatus(db, b, FailedBatch).batches, runId)
  {
    var after := SetBatchStatus(db, b, FailedBatch).batches;
    forall id | id in ActiveIds(db.batches, runId) && id !in db.batches[b].jobIds ensures id in ActiveIds(after, runId) {
      var x :| 0 <= x < |db.batches| && id in db.batches[x].jobIds && Active(db.batches[x], runId);
      assert after[x] == db.batches[x];
    }
  }

  lemma FeederItemsStayActive(c: Config, s: World, f: nat, a: FeedAction)
    requires c.Valid() && RoutingInv(c, s) && NoEscape(c, s) && FeedCan(c, s, f, a) && FailsCleanly(c, s, AtFeeder(f, a))
    requires !a.Seed?
    ensures FeederIds(FeedDoes(c, s, f, a).feeders[f]) <= ActiveJobs(c, s)
    ensures FeedDoes(c, s, f, a).reach.Keys <= ActiveJobs(c, s)
  {
    hide RoutingInv, ActiveIds, Upsert, c.Valid;
    var me := s.feeders[f];
    assert FeederIds(me) <= ActiveJobs(c, s);
    if a.ReadRow? {
      ReadRowIsOk(c, s, a.jobId, a.pos);
      assert a.jobId in ActiveJobs(c, s) by {
        assert c.Key(a.jobId, a.pos) in s.db.rows;
      }
    } else if a.PublishMarked? {
      assert me.marked[a.i].job.jobId in ItemIds(me.marked);
    }
  }

  lemma SeedStaysActive(c: Config, s: World, f: nat, jobs: seq<Job>)
    requires NoEscape(c, s) && FeedCan(c, s, f, Seed(jobs))
    ensures NoEscape(c, FeedDoes(c, s, f, Seed(jobs)))
  {
    hide ActiveIds, RowsReached;
    SameRowsReached(c, s, FeedDoes(c, s, f, Seed(jobs)));
    AddBatchActivates(c, s, JobIds(jobs));
    forall i | 0 <= i < |jobs| ensures FirstStageItems(jobs)[i].job.jobId in IdSet(JobIds(jobs)) {
      assert JobIds(jobs)[i] == jobs[i].jobId;
    }
  }

  lemma FailStaysActive(c: Config, s: World, f: nat)
    requires NoEscape(c, s) && FeedCan(c, s, f, FailFeed) && FailsCleanly(c, s, AtFeeder(f, FailFeed))
    ensures NoEscape(c, FeedDoes(c, s, f, FailFeed))
  {
    hide ActiveIds, RowsReached;
    var me := s.feeders[f];
    SameRowsReached(c, s, FeedDoes(c, s, f, FailFeed));
    if me.batch.Some? {
      FailingDropsOnlyItsOwn(s.db, me.batch.value, c.Run());
    }
  }

  lemma RowsReachedAfterWrite(c: Config, s: World, s': World, jobId: string, k: nat)
    requires c.Valid() && k <= c.N() && RowsReached(c, s) && s.reach.Keys <= s'.reach.Keys
    requires c.Key(jobId, k) in s'.db.rows && s'.db.rows == s.db.rows[c.Key(jobId, k) := s'.db.rows[c.Key(jobId, k)]]
    requires s'.db.rows[c.Key(jobId, k)].status == Pending || jobId in s'.reach
    ensures RowsReached(c, s')
  {
    forall j, l: nat {:trigger c.Key(j, l)} | l <= c.N() && c.Key(j, l) in s'.db.rows && s'.db.rows[c.Key(j, l)].status != Pending
      ensures j in s'.reach
    {
      if c.Key(j, l) == c.Key(jobId, k) {
        KeysDistinct(c, j, l, jobId, k);
      }
    }
  }

  lemma SameRowsReached(c: Config, s: World, s': World)
    requires RowsReached(c, s) && s.reach.Keys <= s'.reach.Keys && s'.db.rows == s.db.rows
    ensures RowsReached(c, s')
  {
  }

  lemma WorkerRowsReached(c: Config, s: World, w: nat, a: WorkerAction)
    requires c.Valid() && RoutingInv(c, s) && ReachInv(c, s) && RowsReached(c, s) && WorkerCan(c, s, w, a)
    ensures RowsReached(c, WorkerDoes(c, s, w, a))
  {
    hide WorkerDoes, RowsOk, TapOk, FeederOk, MessageOk, FeederWithin, TerminalJobs, RowsWithin, RowsReached, c.Valid;
    var me := s.workers[w];
    var s' := WorkerDoes(c, s, w, a);
    WorkerReachesNobodyNew(c, s, w, a);
    if WritesRow(a) {
      WorkerWritesRow(c, s, w, a);
      assert WorkerOk(c, s.declared, c.slots[w].stage, me) && WorkerWithin(s, me);
      HeldJob(c, s, w);
      RowsReachedAfterWrite(c, s, s', me.phase.job.jobId, c.slots[w].stage);
    } else {
      WorkerLeavesRows(c, s, w, a);
      SameRowsReached(c, s, s');
    }
  }

  lemma TapRowsReached(c: Config, s: World, t: nat, a: TapAction)
    requires c.Valid() && RoutingInv(c, s) && ReachInv(c, s) && RowsReached(c, s) && TapCan(c, s, t, a)
    ensures RowsReached(c, TapDoes(c, s, t, a))
  {
    hide RowsOk, WorkerOk, FeederOk, FeederWithin, TerminalIds, ExpectedCount, TerminalJobs, RowsWithin, RowsReached, c.Valid, Watched;
    var s' := TapDoes(c, s, t, a);
    if a.WriteTerminalRow? {
      assert TapOk(c, s.declared, s.taps[t]);
      RowsReachedAfterWrite(c, s, s', s.taps[t].held[s.taps[t].phase.next].job.jobId, c.N());
    } else {
      SameRowsReached(c, s, s');
    }
  }

  lemma FeederRowsReached(c: Config, s: World, f: nat, a: FeedAction)
    requires c.Valid() && RoutingInv(c, s) && RowsReached(c, s) && FeedCan(c, s, f, a)
    ensures RowsReached(c, FeedDoes(c, s, f, a))
  {
    hide RowsOk, WorkerOk, TapOk, MessageOk, RowsReached, c.Valid, ActiveIds, FirstStageItems, JobIds;
    var s' := FeedDoes(c, s, f, a);
    if a.MarkNext? {
      assert FeederOk(c, s.declared, s.feeders[f]);
      var item := s.feeders[f].todo[0];
      RowsReachedAfterWrite(c, s, s', item.job.jobId, item.pos);
    } else {
      SameRowsReached(c, s, s');
    }
  }

  lemma FeederKeepsActive(c: Config, s: World, f: nat, a: FeedAction)
    requires c.Valid() && RoutingInv(c, s) && CountingInv(c, s) && NoEscape(c, s)
    requires FeedCan(c, s, f, a) && FailsCleanly(c, s, AtFeeder(f, a))
    ensures NoEscape(c, FeedDoes(c, s, f, a))
  {
    hide RoutingInv, ActiveIds, FeederIds, c.Valid, BatchesOk, Upsert, FirstStageItems, JobIds, RowsReached;
    FeederFrame(c, s, f, a);
    FeederRowsReached(c, s, f, a);
    if a.Seed? {
      SeedStaysActive(c, s, f, a.jobs);
    } else if a.FailFeed? {
      FailStaysActive(c, s, f);
    } else {
      FeederItemsStayActive(c, s, f, a);
      if a.FinishFeed? && s.feeders[f].batch.Some? {
        PublishingKeepsActive(s.db, s.feeders[f].batch.value, c.Run());
      }
    }
  }

  /** Workers forward only jobs that were already queued. */
  lemma WorkerReachesNobodyNew(c: Config, s: World, w: nat, a: WorkerAction)
    requires c.Valid() && RoutingInv(c, s) && ReachInv(c, s) && WorkerCan(c, s, w, a)
    ensures WorkerDoes(c, s, w, a).reach.Keys == s.reach.Keys
  {
    hide WorkerDoes, RowsOk, TapOk, FeederOk, RowsWithin, FeederWithin, TerminalJobs, MessageOk, c.Valid;
    WorkerReach(c, s, w, a);
    if Forwards(s, w, a) {
      assert WorkerOk(c, s.declared, c.slots[w].stage, s.workers[w]) && WorkerWithin(s, s.workers[w]);
    }
  }

  lemma StepKeepsActive(c: Config, s: World, step: Step)
    requires c.Valid() && RoutingInv(c, s) && ReachInv(c, s) && CountingInv(c, s) && NoEscape(c, s)
    requires Enabled(c, s, step) && FailsCleanly(c, s, step)
    ensures NoEscape(c, Apply(c, s, step))
  {
    hide WorkerDoes, TapDoes, FeedDoes, RoutingInv, ReachInv, CountingInv, ActiveIds, FeederIds, c.Valid, RowsReached;
    match step
    case AtWorker(w, a) =>
      WorkerFrame(c, s, w, a);
      WorkerReachesNobodyNew(c, s, w, a);
      WorkerRowsReached(c, s, w, a);
    case AtTap(t, a) =>
      TapFrame(c, s, t, a);
      TapRowsReached(c, s, t, a);
    case AtFeeder(f, a) => FeederKeepsActive(c, s, f, a);
    case AtOperator(a) =>
      OperatorFrame(c, s, a);
      SameRowsReached(c, s, Apply(c, s, step));
  }

  // ---------------------------------------------------------------- the condition is exact

  /** A failed batch's jobs are in no other active batch. */
  lemma FailingDropsAll(db: Db, b: nat, runId: string, id: string)
    requires BatchesOk(db.batches, runId) && b < |db.batches| && Active(db.batches[b], runId) && id in db.batches[b].jobIds
    ensures id !in ActiveIds(SetBatchStatus(db, b, FailedBatch).batches, runId)
  {
    var after := SetBatchStatus(db, b, FailedBatch).batches;
    if id in ActiveIds(after, runId) {
      var x :| 0 <= x < |after| && id in after[x].jobIds && Active(after[x], runId);
      ActiveIsInOne(db.batches, runId, x, b, id);
      assert false;
    }
  }

  lemma ActiveIsInOne(batches: seq<SeedBatch>, runId: string, a: nat, b: nat, id: string)
    requires BatchesOk(batches, runId) && a < |batches| && b < |batches| && Active(batches[a], runId) && Active(batches[b], runId)
    requires id in batches[a].jobIds && id in batches[b].jobIds
    ensures a == b
  {
    var i :| 0 <= i < |batches[a].jobIds| && batches[a].jobIds[i] == id;
    var j :| 0 <= j < |batches[b].jobIds| && batches[b].jobIds[j] == id;
  }

  lemma UncleanFailEscapes(c: Config, s: World, f: nat)
    requires CountingInv(c, s) && FeedCan(c, s, f, FailFeed) && !FailsCleanly(c, s, AtFeeder(f, FailFeed))
    ensures !NoEscape(c, FeedDoes(c, s, f, FailFeed))
  {
    hide BatchesOk, ActiveIds, RowsReached;
    var b := s.feeders[f].batch.value;
    var s' := FeedDoes(c, s, f, FailFeed);
    var id :| id in s.db.batches[b].jobIds
      && (id in s.reach || exists g :: 0 <= g < |s.feeders| && g != f && id in FeederIds(s.feeders[g]));
    FailingDropsAll(s.db, b, c.Run(), id);
    if id !in s.reach {
      var g :| 0 <= g < |s.feeders| && g != f && id in FeederIds(s.feeders[g]);
      assert s'.feeders[g] == s.feeders[g];
    }
  }

  lemma UncleanReadEscapes(c: Config, s: World, f: nat, jobId: string, pos: nat)
    requires c.Valid() && RoutingInv(c, s) && FeedCan(c, s, f, ReadRow(jobId, pos)) && jobId !in ActiveJobs(c, s)
    ensures !NoEscape(c, FeedDoes(c, s, f, ReadRow(jobId, pos)))
  {
    hide c.Valid, RoutingInv, ActiveIds, RowsReached;
    ReadRowIsOk(c, s, jobId, pos);
    var s' := FeedDoes(c, s, f, ReadRow(jobId, pos));
    assert s'.feeders[f].todo[|s.feeders[f].todo|].job.jobId == jobId;
    assert jobId in FeederIds(s'.feeders[f]);
  }

  /** From a state without escaped jobs, a step lets one escape exactly when it does not fail cleanly. */
  lemma StepEscapesExactly(c: Config, s: World, step: Step)
    requires c.Valid() && RoutingInv(c, s) && ReachInv(c, s) && CountingInv(c, s) && NoEscape(c, s) && Enabled(c, s, step)
    ensures NoEscape(c, Apply(c, s, step)) <==> FailsCleanly(c, s, step)
  {
    hide c.Valid, WorkerDoes, TapDoes, FeedDoes, RoutingInv, ReachInv, CountingInv, NoEscape, ActiveIds;
    if FailsCleanly(c, s, step) {
      StepKeepsActive(c, s, step);
    } else if step.feed.FailFeed? {
      UncleanFailEscapes(c, s, step.f);
    } else {
      UncleanReadEscapes(c, s, step.f, step.feed.jobId, step.feed.pos);
    }
  }

  /** Then the completion test is exact: the terminal count reaches the expected count just when every active job is recorded. */
  lemma CompletionMeansAllRecorded(c: Config, s: World)
    requires ReachInv(c, s) && CountingInv(c, s) && NoEscape(c, s)
    ensures |TerminalJobs(c, s)| >= ExpectedCount(s.db.batches, c.Run()) <==> ActiveJobs(c, s) <= TerminalJobs(c, s)
  {
    hide BatchesOk, OwnersOk, ActiveIds, ExpectedCount, RowsWithin, FeederWithin, WorkerWithin, TerminalIds;
    assert TerminalJobs(c, s) <= s.reach.Keys;
    CompletionIsExact(s.db.batches, c.Run(), TerminalJobs(c, s));
  }
}
