/** Counting seeded jobs against recorded ones (seed batches of runtime/store.py, is_complete of runtime/models.py). */
module Counting {
  import opened Common
  import opened Jobs
  import opened Documents
  import opened Protocol
  import opened Routing
  import opened TerminalChain

  function IdSet(ids: seq<string>): set<string> {
    set i | 0 <= i < |ids| :: ids[i]
  }

  predicate DisjointIds(a: seq<string>, b: seq<string>) {
    forall i, j :: 0 <= i < |a| && 0 <= j < |b| ==> a[i] != b[j]
  }

  /** Active batches list each id once, across all of them. */
  ghost predicate BatchesOk(batches: seq<SeedBatch>, runId: string) {
    && (forall b :: 0 <= b < |batches| && Active(batches[b], runId) ==>
          batches[b].count == |batches[b].jobIds| && NoDuplicates(batches[b].jobIds))
    && (forall a, b :: 0 <= a < b < |batches| && Active(batches[a], runId) && Active(batches[b], runId) ==>
          DisjointIds(batches[a].jobIds, batches[b].jobIds))
  }

  lemma {:induction false} DistinctIdsCount(ids: seq<string>)
    requires NoDuplicates(ids)
    ensures |IdSet(ids)| == |ids|
  {
    if ids != [] {
      var rest := ids[..|ids| - 1];
      DistinctIdsCount(rest);
      assert IdSet(ids) == IdSet(rest) + {ids[|ids| - 1]};
      assert ids[|ids| - 1] !in IdSet(rest);
    }
  }

  lemma ActiveIdsSplit(batches: seq<SeedBatch>, runId: string)
    requires batches != []
    ensures var last := batches[|batches| - 1];
            ActiveIds(batches, runId)
            == ActiveIds(batches[..|batches| - 1], runId) + if Active(last, runId) then IdSet(last.jobIds) else {}
  {
    var rest := batches[..|batches| - 1];
    var last := batches[|batches| - 1];
    forall id | id in ActiveIds(batches, runId)
      ensures id in ActiveIds(rest, runId) + if Active(last, runId) then IdSet(last.jobIds) else {}
    {
      var b :| 0 <= b < |batches| && id in batches[b].jobIds && Active(batches[b], runId);
      if b < |rest| {
        assert rest[b] == batches[b];
      }
    }
    forall id | id in ActiveIds(rest, runId) ensures id in ActiveIds(batches, runId) {
      var b :| 0 <= b < |rest| && id in rest[b].jobIds && Active(rest[b], runId);
      assert batches[b] == rest[b];
    }
    if Active(last, runId) {
      forall id | id in IdSet(last.jobIds) ensures id in ActiveIds(batches, runId) {
        assert batches[|batches| - 1] == last && id in last.jobIds;
      }
    }
  }

  /** The sum of the batch counts is the number of distinct actively seeded jobs. */
  lemma {:induction false} ExpectedIsExact(batches: seq<SeedBatch>, runId: string)
    requires BatchesOk(batches, runId)
    ensures ExpectedCount(batches, runId) == |ActiveIds(batches, runId)|
  {
    if batches == [] {
      assert ActiveIds(batches, runId) == {};
    } else {
      var rest := batches[..|batches| - 1];
      var last := batches[|batches| - 1];
      assert BatchesOk(rest, runId) by {
        assert forall b :: 0 <= b < |rest| ==> rest[b] == batches[b];
      }
      ExpectedIsExact(rest, runId);
      ActiveIdsSplit(batches, runId);
      if Active(last, runId) {
        DistinctIdsCount(last.jobIds);
        DisjointFromRest(batches, runId);
      }
    }
  }

  lemma DisjointFromRest(batches: seq<SeedBatch>, runId: string)
    requires batches != [] && BatchesOk(batches, runId) && Active(batches[|batches| - 1], runId)
    ensures ActiveIds(batches[..|batches| - 1], runId) !! IdSet(batches[|batches| - 1].jobIds)
  {
    var rest := batches[..|batches| - 1];
    var last := batches[|batches| - 1];
    forall id | id in ActiveIds(rest, runId) ensures id !in IdSet(last.jobIds) {
      var b :| 0 <= b < |rest| && id in rest[b].jobIds && Active(rest[b], runId);
      assert batches[b] == rest[b];
      assert DisjointIds(batches[b].jobIds, last.jobIds);
    }
  }

  lemma SubsetCount<T>(a: set<T>, b: set<T>)
    requires a <= b
    ensures |a| <= |b|
    ensures |a| >= |b| ==> a == b
  {
    assert |b| == |a| + |b - a| by { assert b == a + (b - a); }
    if |a| >= |b| {
      assert b - a == {};
    }
  }

  /** With no job recorded outside the active batches, the count is reached exactly when every active job is recorded. */
  lemma CompletionIsExact(batches: seq<SeedBatch>, runId: string, recorded: set<string>)
    requires BatchesOk(batches, runId)
    requires recorded <= ActiveIds(batches, runId)
    ensures |recorded| >= ExpectedCount(batches, runId) <==> ActiveIds(batches, runId) <= recorded
  {
    var active := ActiveIds(batches, runId);
    ExpectedIsExact(batches, runId);
    SubsetCount(recorded, active);
    assert active <= recorded ==> active == recorded;
  }

  /** In general the count misleads exactly when recorded jobs outside the active batches make up for missing ones. */
  lemma CountMisleadsExactly(batches: seq<SeedBatch>, runId: string, recorded: set<string>)
    requires BatchesOk(batches, runId)
    ensures var active := ActiveIds(batches, runId);
            !(|recorded| >= ExpectedCount(batches, runId) <==> active <= recorded)
            <==> active - recorded != {} && |recorded - active| >= |active - recorded|
  {
    hide ActiveIds, ExpectedCount, BatchesOk;
    ExpectedIsExact(batches, runId);
    SplitCount(recorded, ActiveIds(batches, runId));
  }

  lemma SplitCount<T>(a: set<T>, b: set<T>)
    ensures |a| - |a - b| == |b| - |b - a|
    ensures b <= a <==> b - a == {}
    ensures b - a != {} <==> |b - a| > 0
  {
    assert a == (a * b) + (a - b) && b == (a * b) + (b - a);
    if b - a == {} {
      assert forall x :: x in b ==> x in a || x in b - a;
    }
  }

  lemma ActiveIdIsCounted(batches: seq<SeedBatch>, runId: string, b: nat, id: string)
    requires b < |batches| && id in batches[b].jobIds && Active(batches[b], runId)
    ensures id in ActiveIds(batches, runId)
  {
  }

  // ---------------------------------------------------------------- over a run

  /** Each feeder still owns the batch it created, and nobody else does. */
  ghost predicate OwnersOk(s: World) {
    && (forall f :: 0 <= f < |s.feeders| && s.feeders[f].Feeding? && s.feeders[f].batch.Some? ==>
          var b := s.feeders[f].batch.value; b < |s.db.batches| && s.db.batches[b].status == Created)
    && (forall f, g ::
          (0 <= f < |s.feeders| && 0 <= g < |s.feeders| && f != g
           && s.feeders[f].Feeding? && s.feeders[g].Feeding? && s.feeders[f].batch.Some?)
          ==> s.feeders[f].batch != s.feeders[g].batch)
  }

  /** Every batch stored is one of this run. */
  ghost predicate OfThisRun(c: Config, batches: seq<SeedBatch>) {
    forall b :: 0 <= b < |batches| ==> batches[b].runId == c.Run()
  }

  ghost predicate CountingInv(c: Config, s: World) {
    BatchesOk(s.db.batches, c.Run()) && OwnersOk(s) && OfThisRun(c, s.db.batches)
  }

  lemma SeedKeepsBatches(c: Config, s: World, jobs: seq<Job>)
    requires BatchesOk(s.db.batches, c.Run()) && Seedable(c, s, jobs)
    ensures BatchesOk(AddBatch(s.db, c.Run(), JobIds(jobs)).batches, c.Run())
  {
    var before := s.db.batches;
    var after := AddBatch(s.db, c.Run(), JobIds(jobs)).batches;
    forall a, b | 0 <= a < b < |after| && Active(after[a], c.Run()) && Active(after[b], c.Run())
      ensures DisjointIds(after[a].jobIds, after[b].jobIds)
    {
      if b == |before| {
        forall i, j | 0 <= i < |after[a].jobIds| && 0 <= j < |jobs| ensures after[a].jobIds[i] != jobs[j].jobId {
          assert before[a].jobIds[i] in before[a].jobIds;
          assert before[a].jobIds[i] in ActiveIds(before, c.Run());
        }
      }
    }
  }

  lemma StatusKeepsBatches(db: Db, b: nat, status: BatchStatus, runId: string)
    requires BatchesOk(db.batches, runId) && b < |db.batches| && db.batches[b].status == Created
    ensures BatchesOk(SetBatchStatus(db, b, status).batches, runId)
  {
  }

  lemma FeederKeepsCounting(c: Config, s: World, f: nat, a: FeedAction)
    requires CountingInv(c, s) && FeedCan(c, s, f, a)
    ensures CountingInv(c, FeedDoes(c, s, f, a))
  {
    hide BatchesOk, Upsert, ActiveIds, FirstStageItems, JobIds;
    match a
    case Seed(jobs) => SeedKeepsBatches(c, s, jobs);
    case FinishFeed =>
      if s.feeders[f].batch.Some? { StatusKeepsBatches(s.db, s.feeders[f].batch.value, Published, c.Run()); }
    case FailFeed =>
      if s.feeders[f].batch.Some? { StatusKeepsBatches(s.db, s.feeders[f].batch.value, FailedBatch, c.Run()); }
    case _ =>
  }

  lemma StepKeepsCounting(c: Config, s: World, step: Step)
    requires CountingInv(c, s) && Enabled(c, s, step)
    ensures CountingInv(c, Apply(c, s, step))
  {
    hide WorkerDoes, TapDoes, FeedDoes, BatchesOk;
    match step
    case AtWorker(w, a) => WorkerFrame(c, s, w, a);
    case AtTap(t, a) => TapFrame(c, s, t, a);
    case AtFeeder(f, a) => FeederKeepsCounting(c, s, f, a);
    case AtOperator(a) => OperatorFrame(c, s, a);
  }

  // ---------------------------------------------------------------- a done tap

  /** `RunStatus.is_complete`, read from the log, as `run_in_process` checks it after its tap is done. */
  predicate Confirmed(c: Config, s: World) {
    |TerminalJobs(c, s)| >= ExpectedCount(s.db.batches, c.Run())
  }

  lemma {:induction false} ExpectedAfterStatus(batches: seq<SeedBatch>, b: nat, status: BatchStatus, runId: string)
    requires b < |batches| && batches[b].status == Created
    ensures ExpectedCount(batches[b := batches[b].(status := status)], runId) <= ExpectedCount(batches, runId)
  {
    var after := batches[b := batches[b].(status := status)];
    var n := |batches| - 1;
    if b < n {
      assert after[..n] == batches[..n][b := batches[b].(status := status)];
      ExpectedAfterStatus(batches[..n], b, status, runId);
    } else {
      assert after[..n] == batches[..n];
    }
  }

  lemma FeederKeepsConfirmed(c: Config, s: World, f: nat, a: FeedAction)
    requires CountingInv(c, s) && Confirmed(c, s) && FeedCan(c, s, f, a) && !a.Seed?
    ensures Confirmed(c, FeedDoes(c, s, f, a))
  {
    hide TerminalIds, ExpectedCount, BatchesOk, Upsert;
    FeederFrame(c, s, f, a);
    var me := s.feeders[f];
    if (a.FinishFeed? || a.FailFeed?) && me.batch.Some? {
      ExpectedAfterStatus(s.db.batches, me.batch.value, if a.FinishFeed? then Published else FailedBatch, c.Run());
    }
  }

  /** As long as nothing more is seeded, a completed run stays complete. */
  lemma ConfirmedStays(c: Config, s: World, step: Step)
    requires c.Valid() && RoutingInv(c, s) && CountingInv(c, s) && Enabled(c, s, step)
    requires !(step.AtFeeder? && step.feed.Seed?)
    ensures Confirmed(c, s) ==> Confirmed(c, Apply(c, s, step))
  {
    hide WorkerDoes, TapDoes, FeedDoes, RoutingInv, CountingInv, TerminalIds, ExpectedCount, c.Valid;
    if Confirmed(c, s) {
      match step
      case AtWorker(w, a) =>
        WorkerFrame(c, s, w, a);
        WorkerRecords(c, s, w, a);
      case AtTap(t, a) =>
        TapFrame(c, s, t, a);
        TapRecords(c, s, t, a);
        SubsetCount(TerminalJobs(c, s), TerminalJobs(c, TapDoes(c, s, t, a)));
      case AtFeeder(f, a) => FeederKeepsConfirmed(c, s, f, a);
      case AtOperator(a) => OperatorFrame(c, s, a);
    }
  }

  lemma TapTurnsDone(c: Config, s: World, t: nat, a: TapAction)
    requires c.Valid() && RoutingInv(c, s) && ChainInv(c, s) && TapCan(c, s, t, a)
    requires !s.taps[t].done && TapDoes(c, s, t, a).taps[t].done
    ensures Confirmed(c, TapDoes(c, s, t, a))
  {
    hide TerminalJobs, TerminalIds, ExpectedCount, RoutingInv, c.Valid, HasTerminalRow, Upsert;
    TapFrame(c, s, t, a);
    TapRecords(c, s, t, a);
    assert TapChain(c, s.db.rows, TerminalJobs(c, s), s.taps[t]);
    SubsetCount(s.taps[t].known, TerminalJobs(c, s));
  }

  /** A tap turns done only when the log confirms it. */
  lemma TurnsDone(c: Config, s: World, step: Step, x: nat)
    requires c.Valid() && RoutingInv(c, s) && ChainInv(c, s) && Enabled(c, s, step) && x < |s.taps|
    ensures |Apply(c, s, step).taps| == |s.taps|
    ensures !s.taps[x].done && Apply(c, s, step).taps[x].done ==> Confirmed(c, Apply(c, s, step))
  {
    hide WorkerDoes, TapDoes, FeedDoes, RoutingInv, ChainInv, TerminalIds, ExpectedCount, c.Valid, Confirmed;
    match step
    case AtWorker(w, a) => WorkerFrame(c, s, w, a);
    case AtTap(t, a) =>
      TapFrame(c, s, t, a);
      if t == x && !s.taps[x].done && TapDoes(c, s, t, a).taps[x].done {
        TapTurnsDone(c, s, t, a);
      }
    case AtFeeder(f, a) => FeederFrame(c, s, f, a);
    case AtOperator(a) => OperatorFrame(c, s, a);
  }
}
