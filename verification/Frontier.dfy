/** Work is never lost: something at a job's furthest position always stands for it. */
module Frontier {
  import opened Common
  import opened Manifest
  import opened Jobs
  import opened Documents
  import opened Protocol
  import opened Routing
  import opened RowShape
  import opened TerminalChain

  // ---------------------------------------------------------------- nothing is past its frontier

  ghost predicate Within(s: World, jobId: string, k: nat) {
    jobId in s.reach && k <= s.reach[jobId]
  }

  ghost predicate WorkerWithin(s: World, worker: Worker) {
    worker.unacked.Some? ==>
      var m := worker.unacked.value;
      && Within(s, m.job.jobId, m.pos)
      && (worker.phase.Sent? && worker.frames == [] ==> Within(s, m.job.jobId, m.pos + 1))
  }

  ghost predicate ItemsWithin(s: World, items: seq<Item>) {
    forall i :: 0 <= i < |items| ==> items[i].pos <= s.Frontier(items[i].job.jobId)
  }

  ghost predicate ItemsMarked(s: World, items: seq<Item>) {
    forall i :: 0 <= i < |items| ==> items[i].job.jobId in s.marked
  }

  ghost predicate FeederWithin(s: World, feeder: Feeder) {
    match feeder
    case Resting => true
    case Reading(todo) => ItemsWithin(s, todo)
    case Feeding(_, _, todo, marked) => ItemsWithin(s, todo) && ItemsWithin(s, marked) && ItemsMarked(s, marked)
  }

  ghost predicate RowsWithin(c: Config, s: World) {
    && (forall j, k: nat {:trigger c.Key(j, k)} :: k < c.N() && c.Key(j, k) in s.db.rows ==> k <= s.Frontier(j))
  }

  ghost predicate ReachInv(c: Config, s: World) {
    && s.reach.Keys <= s.marked
    && (forall m :: m in s.ready ==> Within(s, m.job.jobId, m.pos))
    && (forall w :: 0 <= w < |s.workers| ==> WorkerWithin(s, s.workers[w]))
    && (forall t, i :: 0 <= t < |s.taps| && 0 <= i < |s.taps[t].held| ==>
          Within(s, s.taps[t].held[i].job.jobId, s.taps[t].held[i].pos))
    && (forall f :: 0 <= f < |s.feeders| ==> FeederWithin(s, s.feeders[f]))
    && RowsWithin(c, s)
    && (forall id :: id in TerminalJobs(c, s) ==> Within(s, id, c.N()))
    && (forall j :: j in s.reach ==> s.reach[j] <= c.N())
  }

  /** Frontiers only move forward, and marks stay. */
  ghost predicate Advances(s: World, s': World) {
    && s.marked <= s'.marked
    && (forall j :: j in s.reach ==> j in s'.reach && s.reach[j] <= s'.reach[j])
  }

  lemma WithinAdvances(s: World, s': World)
    requires Advances(s, s')
    ensures forall j, k: nat :: Within(s, j, k) ==> Within(s', j, k)
    ensures forall j :: s.Frontier(j) <= s'.Frontier(j)
    ensures forall worker :: WorkerWithin(s, worker) ==> WorkerWithin(s', worker)
    ensures forall feeder :: FeederWithin(s, feeder) ==> FeederWithin(s', feeder)
  {
    forall feeder | FeederWithin(s, feeder) ensures FeederWithin(s', feeder) {
    }
  }

  lemma AcceptAdvances(s: World, m: Message)
    ensures Advances(s, s.Accept(m))
    ensures m.queue in s.declared ==> Within(s.Accept(m), m.job.jobId, m.pos) && m in s.Accept(m).ready
    ensures forall x :: x in s.ready ==> x in s.Accept(m).ready
    ensures forall x :: x in s.Accept(m).ready ==> x in s.ready || (x == m && m.queue in s.declared)
    ensures s.Accept(m) == s.(ready := s.Accept(m).ready, reach := s.Accept(m).reach)
    ensures forall j :: j != m.job.jobId ==> s.Accept(m).Frontier(j) == s.Frontier(j)
    ensures s.Accept(m).Frontier(m.job.jobId) == s.Frontier(m.job.jobId)
            || (m.queue in s.declared && s.Accept(m).Frontier(m.job.jobId) == m.pos && m.pos > s.Frontier(m.job.jobId))
  {
  }

  // ---------------------------------------------------------------- what stands for a job

  /** A connection whose message has no recorded outcome yet: closing it would put live work back. */
  ghost predicate Live(worker: Worker) {
    && worker.unacked.Some?
    && (worker.phase.Idle? || worker.phase.Sent? || worker.phase.Recorded? ==>
          worker.frames != [] && !worker.frames[0].Ack?)
  }

  /** Where a callback that is not forwarded leaves a row. */
  const STOPPED: set<Status> := {Held, RetryWaiting, DeadLettered}

  /** The same, and marked pending. */
  const PARKED: set<Status> := STOPPED + {Pending}

  ghost predicate Queued(s: World, jobId: string, k: nat) {
    exists m :: m in s.ready && m.job.jobId == jobId && m.pos == k
  }

  ghost predicate InHand(s: World, jobId: string, k: nat) {
    exists w :: 0 <= w < |s.workers| && LiveAt(s.workers[w], jobId, k)
  }

  ghost predicate LiveAt(worker: Worker, jobId: string, k: nat) {
    Live(worker) && worker.unacked.value.job.jobId == jobId && worker.unacked.value.pos == k
  }

  ghost predicate AtTap(s: World, jobId: string) {
    exists t :: 0 <= t < |s.taps| && Holds(s.taps[t], jobId)
  }

  ghost predicate Holds(tap: Tap, jobId: string) {
    exists m :: m in tap.held && m.job.jobId == jobId
  }

  ghost predicate RowIn(c: Config, rows: Rows, jobId: string, k: nat, ok: set<Status>) {
    k < c.N() && c.Key(jobId, k) in rows && rows[c.Key(jobId, k)].status in ok
  }

  /** Something at the job's furthest position stands for it, a row in one of these statuses included. */
  ghost predicate StandsBy(c: Config, s: World, jobId: string, ok: set<Status>) {
    var k := s.Frontier(jobId);
    || Queued(s, jobId, k)
    || InHand(s, jobId, k)
    || (k == c.N() && AtTap(s, jobId))
    || RowIn(c, s.db.rows, jobId, k, ok)
    || (k == c.N() && jobId in TerminalJobs(c, s))
  }

  ghost predicate Standing(c: Config, s: World, jobId: string) {
    StandsBy(c, s, jobId, PARKED)
  }

  ghost predicate FrontierInv(c: Config, s: World) {
    forall j :: j in s.marked ==> Standing(c, s, j)
  }

  // ---------------------------------------------------------------- reach is preserved

  lemma RowsWithinAfterWrite(c: Config, s: World, s': World, jobId: string, k: nat)
    requires c.Valid() && k <= c.N() && RowsWithin(c, s)
    requires Advances(s, s')
    requires c.Key(jobId, k) in s'.db.rows && s'.db.rows == s.db.rows[c.Key(jobId, k) := s'.db.rows[c.Key(jobId, k)]]
    requires k < c.N() ==> k <= s'.Frontier(jobId)
    ensures RowsWithin(c, s')
  {
    forall j, l: nat {:trigger c.Key(j, l)} | l < c.N() && c.Key(j, l) in s'.db.rows ensures l <= s'.Frontier(j) {
      if c.Key(j, l) == c.Key(jobId, k) {
        KeysDistinct(c, j, l, jobId, k);
      } else {
        assert l <= s.Frontier(j);
      }
    }
  }

  lemma WorkerRowsWithin(c: Config, s: World, w: nat, a: WorkerAction)
    requires c.Valid() && RoutingInv(c, s) && ReachInv(c, s) && WorkerCan(c, s, w, a)
    ensures RowsWithin(c, WorkerDoes(c, s, w, a))
  {
    hide WorkerDoes, RowsOk, TapOk, FeederOk, MessageOk, FeederWithin, TerminalJobs, RowsWithin, c.Valid;
    var me := s.workers[w];
    var s' := WorkerDoes(c, s, w, a);
    WorkerAdvances(c, s, w, a);
    if WritesRow(a) {
      assert WorkerOk(c, s.declared, c.slots[w].stage, me) && WorkerWithin(s, me);
      WorkerWritesRow(c, s, w, a);
      HeldJob(c, s, w);
      RowsWithinAfterWrite(c, s, s', me.phase.job.jobId, c.slots[w].stage);
    } else {
      WorkerLeavesRows(c, s, w, a);
      SameRowsWithin(c, s, s');
    }
  }

  predicate Forwards(s: World, w: nat, a: WorkerAction)
    requires w < |s.workers|
  {
    a.BrokerHandles? && s.workers[w].frames != [] && s.workers[w].frames[0].Publish?
  }

  /** Only the broker handling a publish moves a frontier. */
  lemma WorkerReach(c: Config, s: World, w: nat, a: WorkerAction)
    requires WorkerCan(c, s, w, a)
    ensures WorkerDoes(c, s, w, a).reach == if Forwards(s, w, a) then s.Accept(s.workers[w].frames[0].message).reach else s.reach
  {
    hide Upsert, ActiveHold, LedgerSize;
  }

  lemma WorkerAdvances(c: Config, s: World, w: nat, a: WorkerAction)
    requires c.Valid() && RoutingInv(c, s) && ReachInv(c, s) && WorkerCan(c, s, w, a)
    ensures var s' := WorkerDoes(c, s, w, a);
            && Advances(s, s')
            && s'.reach.Keys <= s'.marked
            && (forall j :: j in s'.reach ==> s'.reach[j] <= c.N())
  {
    hide WorkerDoes, RowsOk, TapOk, FeederOk, FeederWithin, TerminalJobs, RowsWithin, c.Valid;
    WorkerFrame(c, s, w, a);
    WorkerReach(c, s, w, a);
    assert WorkerOk(c, s.declared, c.slots[w].stage, s.workers[w]) && WorkerWithin(s, s.workers[w]);
  }

  lemma BrokerPlacesWithin(c: Config, s: World, w: nat, a: WorkerAction)
    requires c.Valid() && RoutingInv(c, s) && ReachInv(c, s) && WorkerCan(c, s, w, a) && a.BrokerHandles?
    ensures WorkerWithin(WorkerDoes(c, s, w, a), WorkerDoes(c, s, w, a).workers[w])
    ensures forall m :: m in WorkerDoes(c, s, w, a).ready ==> Within(WorkerDoes(c, s, w, a), m.job.jobId, m.pos)
  {
    hide RowsOk, TapOk, FeederOk, FeederWithin, TerminalJobs, RowsWithin, c.Valid, Within, Subscribed;
    var me := s.workers[w];
    var s' := WorkerDoes(c, s, w, a);
    assert WorkerOk(c, s.declared, c.slots[w].stage, me) && WorkerWithin(s, me);
    WorkerAdvances(c, s, w, a);
    WithinAdvances(s, s');
    if me.frames[0].Publish? {
      var out := me.frames[0].message;
      QueueDeclared(c, s.declared, out.pos, out.job.partitionKey);
      AcceptAdvances(s, out);
      AcceptedWithin(s, s', out);
    }
  }

  lemma WorkerPlacesWithin(c: Config, s: World, w: nat, a: WorkerAction)
    requires c.Valid() && RoutingInv(c, s) && ReachInv(c, s) && WorkerCan(c, s, w, a)
    ensures WorkerWithin(WorkerDoes(c, s, w, a), WorkerDoes(c, s, w, a).workers[w])
    ensures forall m :: m in WorkerDoes(c, s, w, a).ready ==> Within(WorkerDoes(c, s, w, a), m.job.jobId, m.pos)
  {
    hide WorkerDoes, RoutingInv, FeederWithin, ActiveHold, LedgerSize, TerminalJobs, RowsWithin, c.Valid, Within;
    if a.BrokerHandles? {
      BrokerPlacesWithin(c, s, w, a);
    } else if OnChannel(a) {
      ChannelPlacesWithin(c, s, w, a);
    } else {
      assert WorkerWithin(s, s.workers[w]);
      LocalMoves(c, s, w, a);
      WorkerAdvances(c, s, w, a);
      WithinAdvances(s, WorkerDoes(c, s, w, a));
    }
  }

  lemma ChannelPlacesWithin(c: Config, s: World, w: nat, a: WorkerAction)
    requires c.Valid() && RoutingInv(c, s) && ReachInv(c, s) && WorkerCan(c, s, w, a) && OnChannel(a) && !a.BrokerHandles?
    ensures WorkerWithin(WorkerDoes(c, s, w, a), WorkerDoes(c, s, w, a).workers[w])
    ensures forall m :: m in WorkerDoes(c, s, w, a).ready ==> Within(WorkerDoes(c, s, w, a), m.job.jobId, m.pos)
  {
    hide RowsOk, TapOk, FeederOk, MessageOk, FeederWithin, TerminalJobs, RowsWithin, c.Valid, Within, Subscribed, Advances;
    assert WorkerWithin(s, s.workers[w]);
    WorkerAdvances(c, s, w, a);
    WithinAdvances(s, WorkerDoes(c, s, w, a));
    if a.StopNack? || a.SendPublish? || a.SendAck? {
      assert WorkerOk(c, s.declared, c.slots[w].stage, s.workers[w]);
    }
  }

  lemma AcceptedWithin(s: World, s': World, m: Message)
    requires s'.reach == s.Accept(m).reach && m.queue in s.declared
    ensures Within(s', m.job.jobId, m.pos)
  {
  }

  lemma WorkerKeepsReach(c: Config, s: World, w: nat, a: WorkerAction)
    requires c.Valid() && RoutingInv(c, s) && ReachInv(c, s) && WorkerCan(c, s, w, a)
    ensures ReachInv(c, WorkerDoes(c, s, w, a))
  {
    hide WorkerDoes, RoutingInv, FeederWithin, WorkerWithin, Within, TerminalJobs, RowsWithin, c.Valid;
    var s' := WorkerDoes(c, s, w, a);
    WorkerFrame(c, s, w, a);
    WorkerRowsWithin(c, s, w, a);
    WorkerAdvances(c, s, w, a);
    WithinAdvances(s, s');
    WorkerPlacesWithin(c, s, w, a);
    WorkerRecords(c, s, w, a);
  }

  lemma TapPlacesWithin(c: Config, s: World, t: nat, a: TapAction)
    requires ReachInv(c, s) && TapCan(c, s, t, a)
    ensures var s' := TapDoes(c, s, t, a);
            && (forall m :: m in s'.ready ==> Within(s, m.job.jobId, m.pos))
            && (forall i :: 0 <= i < |s'.taps[t].held| ==> Within(s, s'.taps[t].held[i].job.jobId, s'.taps[t].held[i].pos))
  {
    hide Within, TerminalJobs, TerminalIds, ExpectedCount, RowsWithin, FeederWithin, WorkerWithin, Upsert;
  }

  lemma TapRowsWithin(c: Config, s: World, t: nat, a: TapAction)
    requires c.Valid() && RoutingInv(c, s) && ReachInv(c, s) && TapCan(c, s, t, a)
    ensures RowsWithin(c, TapDoes(c, s, t, a))
  {
    hide TerminalJobs, TerminalIds, ExpectedCount, RowsWithin, FeederWithin, WorkerWithin, WorkerOk, FeederOk, RowsOk;
    TapFrame(c, s, t, a);
    assert TapOk(c, s.declared, s.taps[t]);
    if a.WriteTerminalRow? {
      RowsWithinAfterWrite(c, s, TapDoes(c, s, t, a), s.taps[t].held[s.taps[t].phase.next].job.jobId, c.N());
    } else {
      SameRowsWithin(c, s, TapDoes(c, s, t, a));
    }
  }

  lemma SameRowsWithin(c: Config, s: World, s': World)
    requires RowsWithin(c, s) && s'.db.rows == s.db.rows && Advances(s, s')
    ensures RowsWithin(c, s')
  {
    WithinAdvances(s, s');
  }

  lemma TapKeepsReach(c: Config, s: World, t: nat, a: TapAction)
    requires c.Valid() && RoutingInv(c, s) && ReachInv(c, s) && TapCan(c, s, t, a)
    ensures ReachInv(c, TapDoes(c, s, t, a))
  {
    hide TapDoes, FeederWithin, WorkerWithin, Within, TerminalJobs, RowsWithin, WorkerOk, FeederOk, RowsOk, c.Valid;
    var s' := TapDoes(c, s, t, a);
    TapFrame(c, s, t, a);
    TapRowsWithin(c, s, t, a);
    TapPlacesWithin(c, s, t, a);
    TapRecords(c, s, t, a);
    WithinAdvances(s, s');
    if a.AppendTerminalEvent? {
      assert TapOk(c, s.declared, s.taps[t]);
      assert s.taps[t].held[s.taps[t].phase.next].pos == c.N();
    }
  }

  lemma FeederAdvances(c: Config, s: World, f: nat, a: FeedAction)
    requires c.Valid() && RoutingInv(c, s) && ReachInv(c, s) && FeedCan(c, s, f, a)
    ensures var s' := FeedDoes(c, s, f, a);
            && Advances(s, s')
            && s'.reach.Keys <= s'.marked
            && (forall j :: j in s'.reach ==> s'.reach[j] <= c.N())
            && (forall m :: m in s'.ready ==> m in s.ready || Within(s', m.job.jobId, m.pos))
  {
    hide RowsOk, TapOk, WorkerOk, WorkerWithin, TerminalJobs, RowsWithin, Upsert, ActiveIds, JobIds, FirstStageItems, c.Valid;
    assert FeederOk(c, s.declared, s.feeders[f]) && FeederWithin(s, s.feeders[f]);
    if a.PublishMarked? {
      var item := s.feeders[f].marked[a.i];
      assert item.pos < c.N() && item.job.jobId in s.marked;
    }
  }

  lemma ReadItemsWithin(c: Config, s: World, f: nat, a: FeedAction)
    requires c.Valid() && RoutingInv(c, s) && ReachInv(c, s) && FeedCan(c, s, f, a) && a.ReadRow?
    ensures FeederWithin(FeedDoes(c, s, f, a), FeedDoes(c, s, f, a).feeders[f])
  {
    hide RoutingInv, WorkerWithin, TerminalJobs, c.Valid, Within, RowsWithin;
    assert FeederWithin(s, s.feeders[f]);
    ReadRowIsOk(c, s, a.jobId, a.pos);
    ReadRowWithin(c, s, a.jobId, a.pos);
  }

  lemma FeederItemsWithin(c: Config, s: World, f: nat, a: FeedAction)
    requires c.Valid() && RoutingInv(c, s) && ReachInv(c, s) && FeedCan(c, s, f, a)
    ensures FeederWithin(FeedDoes(c, s, f, a), FeedDoes(c, s, f, a).feeders[f])
  {
    hide RoutingInv, WorkerWithin, TerminalJobs, Upsert, ActiveIds, JobIds, FirstStageItems, c.Valid, Advances, Within, RowsWithin, Seedable, MarkPending, AddBatch, SetBatchStatus;
    if a.ReadRow? {
      ReadItemsWithin(c, s, f, a);
    } else if a.Seed? {
      SeedItemsWithin(s, a.jobs);
    } else {
      FeederAdvances(c, s, f, a);
      WithinAdvances(s, FeedDoes(c, s, f, a));
      assert FeederWithin(s, s.feeders[f]);
    }
  }

  lemma SeedItemsWithin(s: World, jobs: seq<Job>)
    ensures forall s': World :: ItemsWithin(s', FirstStageItems(jobs))
  {
  }

  lemma ReadRowWithin(c: Config, s: World, jobId: string, pos: nat)
    requires RowsWithin(c, s) && pos < c.N() && c.Key(jobId, pos) in s.db.rows
    ensures pos <= s.Frontier(jobId)
  {
  }

  lemma FeederRowsWithin(c: Config, s: World, f: nat, a: FeedAction)
    requires c.Valid() && RoutingInv(c, s) && ReachInv(c, s) && FeedCan(c, s, f, a)
    ensures RowsWithin(c, FeedDoes(c, s, f, a))
  {
    hide RowsOk, TapOk, WorkerOk, WorkerWithin, TerminalJobs, ActiveIds, JobIds, FirstStageItems, c.Valid, Within, RowsWithin;
    FeederAdvances(c, s, f, a);
    if a.MarkNext? {
      assert FeederOk(c, s.declared, s.feeders[f]) && FeederWithin(s, s.feeders[f]);
      var item := s.feeders[f].todo[0];
      RowsWithinAfterWrite(c, s, FeedDoes(c, s, f, a), item.job.jobId, item.pos);
    } else {
      SameRowsWithin(c, s, FeedDoes(c, s, f, a));
    }
  }

  lemma FeederKeepsReach(c: Config, s: World, f: nat, a: FeedAction)
    requires c.Valid() && RoutingInv(c, s) && ReachInv(c, s) && FeedCan(c, s, f, a)
    ensures ReachInv(c, FeedDoes(c, s, f, a))
  {
    hide FeedDoes, FeederWithin, WorkerWithin, Within, RowsWithin, TerminalIds, RoutingInv, c.Valid, Advances;
    var s' := FeedDoes(c, s, f, a);
    FeederFrame(c, s, f, a);
    FeederAdvances(c, s, f, a);
    WithinAdvances(s, s');
    FeederItemsWithin(c, s, f, a);
    FeederRowsWithin(c, s, f, a);
    assert forall j :: j in s'.reach ==> s'.reach[j] <= c.N();
  }

  lemma StepKeepsReach(c: Config, s: World, step: Step)
    requires c.Valid() && RoutingInv(c, s) && ReachInv(c, s) && Enabled(c, s, step)
    ensures ReachInv(c, Apply(c, s, step))
  {
    hide WorkerDoes, TapDoes, FeedDoes, FeederWithin, WorkerWithin, RoutingInv, TerminalIds, c.Valid;
    match step
    case AtWorker(w, a) => WorkerKeepsReach(c, s, w, a);
    case AtTap(t, a) => TapKeepsReach(c, s, t, a);
    case AtFeeder(f, a) => FeederKeepsReach(c, s, f, a);
    case AtOperator(a) =>
      OperatorFrame(c, s, a);
      var s' := OperatorDoes(c, s, a);
      WithinAdvances(s, s');
      SameRowsWithin(c, s, s');
  }

  // ---------------------------------------------------------------- standing is preserved

  /** The worker's own message: whatever it does next, the job is still stood for at that position. */
  lemma BrokerStands(c: Config, s: World, w: nat, a: WorkerAction, j: string)
    requires c.Valid() && RoutingInv(c, s) && WorkerCan(c, s, w, a) && a.BrokerHandles?
    requires LiveAt(s.workers[w], j, c.slots[w].stage)
    ensures var s' := WorkerDoes(c, s, w, a);
            || LiveAt(s'.workers[w], j, c.slots[w].stage)
            || Queued(s', j, c.slots[w].stage)
            || Within(s', j, c.slots[w].stage + 1)
  {
    hide RowsOk, TapOk, FeederOk, c.Valid, Subscribed;
    var me := s.workers[w];
    var s' := WorkerDoes(c, s, w, a);
    assert WorkerOk(c, s.declared, c.slots[w].stage, me);
    if me.frames[0].Publish? {
      var out := me.frames[0].message;
      QueueDeclared(c, s.declared, out.pos, out.job.partitionKey);
      AcceptedWithin(s, s', out);
    } else {
      assert me.unacked.value in s'.ready;
    }
  }

  lemma OwnWorkStands(c: Config, s: World, w: nat, a: WorkerAction, j: string, ok: set<Status>)
    requires c.Valid() && RoutingInv(c, s) && ReachInv(c, s) && WorkerCan(c, s, w, a)
    requires LiveAt(s.workers[w], j, c.slots[w].stage) && STOPPED <= ok
    ensures var s' := WorkerDoes(c, s, w, a);
            || LiveAt(s'.workers[w], j, c.slots[w].stage)
            || Queued(s', j, c.slots[w].stage)
            || RowIn(c, s'.db.rows, j, c.slots[w].stage, ok)
            || Within(s', j, c.slots[w].stage + 1)
  {
    hide WorkerDoes, RoutingInv, FeederWithin, ActiveHold, LedgerSize, TerminalJobs, RowsWithin, c.Valid, Within, RowIn, Queued;
    if a.BrokerHandles? {
      BrokerStands(c, s, w, a, j);
    } else if a.WriteHeld? || a.RecordFailure? {
      WriteParks(c, s, w, a, j, ok);
    } else if OnChannel(a) {
      ChannelStands(c, s, w, a, j);
    } else {
      LocalMoves(c, s, w, a);
      if WorkerDoes(c, s, w, a).workers[w].phase.Recorded? {
        OnlyWritesRecord(c, s, w, a);
      }
    }
  }

  lemma OnlyWritesRecord(c: Config, s: World, w: nat, a: WorkerAction)
    requires WorkerCan(c, s, w, a) && !OnChannel(a) && WorkerDoes(c, s, w, a).workers[w].phase.Recorded?
    ensures a.WriteHeld? || a.RecordFailure? || (a.WriteCompleted? && s.workers[w].phase.Sent?)
  {
    hide ActiveHold, LedgerSize, Upsert;
  }

  lemma ChannelStands(c: Config, s: World, w: nat, a: WorkerAction, j: string)
    requires c.Valid() && RoutingInv(c, s) && WorkerCan(c, s, w, a) && OnChannel(a) && !a.BrokerHandles?
    requires LiveAt(s.workers[w], j, c.slots[w].stage)
    ensures var s' := WorkerDoes(c, s, w, a);
            LiveAt(s'.workers[w], j, c.slots[w].stage) || Queued(s', j, c.slots[w].stage)
  {
    hide RowsOk, TapOk, FeederOk, c.Valid, Subscribed, MessageOk;
    var me := s.workers[w];
    assert WorkerOk(c, s.declared, c.slots[w].stage, me);
    if a.Crash? {
      assert me.unacked.value in WorkerDoes(c, s, w, a).ready;
    }
  }

  lemma WriteParks(c: Config, s: World, w: nat, a: WorkerAction, j: string, ok: set<Status>)
    requires c.Valid() && RoutingInv(c, s) && WorkerCan(c, s, w, a) && (a.WriteHeld? || a.RecordFailure?)
    requires s.workers[w].unacked.Some? && s.workers[w].unacked.value.job.jobId == j && STOPPED <= ok
    ensures RowIn(c, WorkerDoes(c, s, w, a).db.rows, j, c.slots[w].stage, ok)
  {
    hide WorkerDoes, RoutingInv, c.Valid;
    WorkerWritesRow(c, s, w, a);
    HeldJob(c, s, w);
  }

  /** A worker that writes a row in the middle of its call still stands for the job. */
  lemma MidCallStands(c: Config, s: World, w: nat, a: WorkerAction, j: string)
    requires c.Valid() && RoutingInv(c, s) && ReachInv(c, s) && WorkerCan(c, s, w, a) && (a.WriteRunning? || a.WriteCompleted?)
    requires s.workers[w].phase.job.jobId == j && c.slots[w].stage == s.Frontier(j)
    ensures LiveAt(WorkerDoes(c, s, w, a).workers[w], j, c.slots[w].stage)
  {
    hide RowsOk, TapOk, FeederOk, FeederWithin, TerminalJobs, RowsWithin, c.Valid, MessageOk, Upsert;
    var me := s.workers[w];
    assert WorkerOk(c, s.declared, c.slots[w].stage, me) && WorkerWithin(s, me);
  }

  /** A parked row at the frontier is overwritten only by work that stands for the job itself. */
  lemma ParkedRowStands(c: Config, s: World, w: nat, a: WorkerAction, j: string, k: nat, ok: set<Status>)
    requires c.Valid() && RoutingInv(c, s) && ReachInv(c, s) && WorkerCan(c, s, w, a)
    requires RowIn(c, s.db.rows, j, k, ok) && STOPPED <= ok && k == s.Frontier(j)
    ensures var s' := WorkerDoes(c, s, w, a);
            RowIn(c, s'.db.rows, j, k, ok) || LiveAt(s'.workers[w], j, k)
  {
    hide WorkerDoes, RoutingInv, ReachInv, c.Valid, LiveAt;
    var me := s.workers[w];
    if !WritesRow(a) {
      WorkerLeavesRows(c, s, w, a);
    } else {
      WorkerWritesRow(c, s, w, a);
      HeldJob(c, s, w);
      if c.Key(me.phase.job.jobId, c.slots[w].stage) == c.Key(j, k) {
        KeysDistinct(c, me.phase.job.jobId, c.slots[w].stage, j, k);
        if a.WriteRunning? || a.WriteCompleted? {
          MidCallStands(c, s, w, a, j);
        }
      }
    }
  }

  lemma ReadyStands(c: Config, s: World, w: nat, a: WorkerAction, m: Message)
    requires c.Valid() && RoutingInv(c, s) && WorkerCan(c, s, w, a) && m in s.ready
    ensures var s' := WorkerDoes(c, s, w, a);
            m in s'.ready || LiveAt(s'.workers[w], m.job.jobId, m.pos)
  {
    hide RoutingInv, ActiveHold, LedgerSize, Upsert, c.Valid;
    if a.Deliver? && m != s.ready[a.i] {
      WithoutKeepsOthers(s.ready, a.i, m);
    }
  }

  lemma WorkerKeepsStanding(c: Config, s: World, w: nat, a: WorkerAction, j: string, ok: set<Status>)
    requires c.Valid() && RoutingInv(c, s) && ReachInv(c, s) && WorkerCan(c, s, w, a)
    requires StandsBy(c, s, j, ok) && STOPPED <= ok
    ensures StandsBy(c, WorkerDoes(c, s, w, a), j, ok)
  {
    hide WorkerDoes, RowsOk, TapOk, FeederOk, MessageOk, RowsWithin, FeederWithin, TerminalJobs, RowIn, LiveAt, Holds, c.Valid;
    var k := s.Frontier(j);
    var s' := WorkerDoes(c, s, w, a);
    WorkerFrame(c, s, w, a);
    WorkerRecords(c, s, w, a);
    WorkerReach(c, s, w, a);
    WorkerAdvances(c, s, w, a);
    if s'.Frontier(j) != k {
      NewFrontierStands(c, s, w, a, j);
    } else if Queued(s, j, k) {
      var m :| m in s.ready && m.job.jobId == j && m.pos == k;
      ReadyStands(c, s, w, a, m);
    } else if InHand(s, j, k) {
      var v :| 0 <= v < |s.workers| && LiveAt(s.workers[v], j, k);
      if v == w {
        OwnPosition(c, s, w, j, k);
        OwnWorkStands(c, s, w, a, j, ok);
      } else {
        assert s'.workers[v] == s.workers[v];
      }
    } else if RowIn(c, s.db.rows, j, k, ok) {
      ParkedRowStands(c, s, w, a, j, k, ok);
    }
  }

  lemma OwnPosition(c: Config, s: World, w: nat, j: string, k: nat)
    requires c.Valid() && RoutingInv(c, s) && w < |s.workers| && LiveAt(s.workers[w], j, k)
    ensures k == c.slots[w].stage
  {
    assert WorkerOk(c, s.declared, c.slots[w].stage, s.workers[w]);
  }

  /** When a frontier moves, the message that moved it is in the queue there. */
  lemma NewFrontierStands(c: Config, s: World, w: nat, a: WorkerAction, j: string)
    requires c.Valid() && WorkerCan(c, s, w, a)
    requires WorkerDoes(c, s, w, a).Frontier(j) != s.Frontier(j)
    ensures Queued(WorkerDoes(c, s, w, a), j, WorkerDoes(c, s, w, a).Frontier(j))
  {
    hide ActiveHold, LedgerSize, Upsert, c.Valid;
    WorkerReach(c, s, w, a);
    var m := s.workers[w].frames[0].message;
    AcceptAdvances(s, m);
    assert m in WorkerDoes(c, s, w, a).ready;
  }

  lemma TapHoldStands(c: Config, s: World, t: nat, a: TapAction, j: string)
    requires c.Valid() && RoutingInv(c, s) && ChainInv(c, s) && TapCan(c, s, t, a)
    requires Holds(s.taps[t], j)
    ensures var s' := TapDoes(c, s, t, a);
            Holds(s'.taps[t], j) || Queued(s', j, c.N()) || j in TerminalJobs(c, s)
  {
    hide RowsOk, WorkerOk, FeederOk, MessageOk, TerminalIds, ExpectedCount, Upsert, HasTerminalRow, TerminalJobs, c.Valid;
    var me := s.taps[t];
    var s' := TapDoes(c, s, t, a);
    assert TapOk(c, s.declared, me) && TapChain(c, s.db.rows, TerminalJobs(c, s), me);
    var m :| m in me.held && m.job.jobId == j;
    var i :| 0 <= i < |me.held| && me.held[i] == m;
    if me.phase.Acking? {
      assert me.held[i].job.jobId in IdsUpTo(me.held, |me.held|);
    } else if a.TapCloses? {
      assert m in s'.ready;
    }
  }

  lemma TapReadyStands(c: Config, s: World, t: nat, a: TapAction, m: Message)
    requires c.Valid() && RoutingInv(c, s) && ChainInv(c, s) && TapCan(c, s, t, a) && m in s.ready
    ensures var s' := TapDoes(c, s, t, a);
            m in s'.ready || (m.pos == c.N() && (Holds(s'.taps[t], m.job.jobId) || m.job.jobId in TerminalJobs(c, s)))
  {
    hide RowsOk, WorkerOk, FeederOk, TerminalIds, ExpectedCount, Upsert, HasTerminalRow, TerminalJobs, c.Valid, Watched, IdsUpTo;
    var me := s.taps[t];
    assert TapChain(c, s.db.rows, TerminalJobs(c, s), me);
    if a.TapReceives? {
      if m != s.ready[a.i] {
        WithoutKeepsOthers(s.ready, a.i, m);
      } else {
        assert MessageOk(c, s.declared, m);
        WatchedIsFinal(c, s.declared, me, m);
        assert m.job.jobId !in me.known ==> m in TapDoes(c, s, t, a).taps[t].held;
      }
    }
  }

  lemma TapLeavesParked(c: Config, s: World, t: nat, a: TapAction, j: string, k: nat, ok: set<Status>)
    requires c.Valid() && RoutingInv(c, s) && TapCan(c, s, t, a)
    requires RowIn(c, s.db.rows, j, k, ok)
    ensures RowIn(c, TapDoes(c, s, t, a).db.rows, j, k, ok)
  {
    hide RowsOk, WorkerOk, FeederOk, TerminalIds, ExpectedCount, TapOk;
    StageIsNotTerminal(c, k);
  }

  lemma TapKeepsStanding(c: Config, s: World, t: nat, a: TapAction, j: string, ok: set<Status>)
    requires c.Valid() && RoutingInv(c, s) && ChainInv(c, s) && TapCan(c, s, t, a)
    requires StandsBy(c, s, j, ok)
    ensures StandsBy(c, TapDoes(c, s, t, a), j, ok)
  {
    hide TapDoes, RoutingInv, ChainInv, TerminalJobs, RowIn, LiveAt, Holds, c.Valid;
    var k := s.Frontier(j);
    var s' := TapDoes(c, s, t, a);
    TapFrame(c, s, t, a);
    TapRecords(c, s, t, a);
    assert s'.Frontier(j) == k;
    if Queued(s, j, k) {
      var m :| m in s.ready && m.job.jobId == j && m.pos == k;
      TapReadyStands(c, s, t, a, m);
    } else if InHand(s, j, k) {
      assert InHand(s', j, k);
    } else if RowIn(c, s.db.rows, j, k, ok) {
      TapLeavesParked(c, s, t, a, j, k, ok);
    } else if k == c.N() && AtTap(s, j) {
      var u :| 0 <= u < |s.taps| && Holds(s.taps[u], j);
      if u == t {
        TapHoldStands(c, s, t, a, j);
      } else {
        assert s'.taps[u] == s.taps[u];
      }
    }
  }

  /** Publishing a marked item never moves a frontier, and adds to what is queued. */
  lemma FeederFrontier(c: Config, s: World, f: nat, a: FeedAction, j: string)
    requires c.Valid() && RoutingInv(c, s) && ReachInv(c, s) && FeedCan(c, s, f, a)
    ensures FeedDoes(c, s, f, a).Frontier(j) == s.Frontier(j)
    ensures forall m :: m in s.ready ==> m in FeedDoes(c, s, f, a).ready
  {
    hide RowsOk, TapOk, WorkerOk, WorkerWithin, TerminalJobs, RowsWithin, Upsert, ActiveIds, JobIds, FirstStageItems, c.Valid;
    assert FeederWithin(s, s.feeders[f]);
  }

  lemma FeederParks(c: Config, s: World, f: nat, a: FeedAction, j: string, k: nat)
    requires c.Valid() && RoutingInv(c, s) && FeedCan(c, s, f, a)
    requires RowIn(c, s.db.rows, j, k, PARKED)
    ensures RowIn(c, FeedDoes(c, s, f, a).db.rows, j, k, PARKED)
  {
    hide RowsOk, TapOk, WorkerOk, ActiveIds, JobIds, FirstStageItems, c.Valid;
  }

  /** A job is marked pending for the first time at stage 0, where its row now stands for it. */
  lemma FirstMarkStands(c: Config, s: World, f: nat, a: FeedAction, j: string)
    requires c.Valid() && RoutingInv(c, s) && ReachInv(c, s) && FeedCan(c, s, f, a)
    requires j in FeedDoes(c, s, f, a).marked && j !in s.marked
    ensures RowIn(c, FeedDoes(c, s, f, a).db.rows, j, FeedDoes(c, s, f, a).Frontier(j), PARKED)
  {
    hide RowsOk, TapOk, WorkerOk, WorkerWithin, TerminalJobs, RowsWithin, ActiveIds, JobIds, FirstStageItems;
    assert FeederOk(c, s.declared, s.feeders[f]) && FeederWithin(s, s.feeders[f]);
    var item := s.feeders[f].todo[0];
    assert item.pos <= s.Frontier(j) == 0;
    assert item.pos < c.N() && JobOk(c, item.job);
  }

  lemma FeederKeepsStanding(c: Config, s: World, f: nat, a: FeedAction, j: string)
    requires c.Valid() && RoutingInv(c, s) && ReachInv(c, s) && FeedCan(c, s, f, a)
    requires j in FeedDoes(c, s, f, a).marked
    requires j in s.marked ==> Standing(c, s, j)
    ensures Standing(c, FeedDoes(c, s, f, a), j)
  {
    hide FeedDoes, RoutingInv, ReachInv, RowIn, LiveAt, Holds, TerminalIds, c.Valid;
    var k := s.Frontier(j);
    var s' := FeedDoes(c, s, f, a);
    FeederFrame(c, s, f, a);
    FeederFrontier(c, s, f, a, j);
    if j !in s.marked {
      FirstMarkStands(c, s, f, a, j);
    } else if RowIn(c, s.db.rows, j, k, PARKED) {
      FeederParks(c, s, f, a, j, k);
    }
  }

  lemma StepKeepsFrontier(c: Config, s: World, step: Step)
    requires c.Valid() && RoutingInv(c, s) && ReachInv(c, s) && ChainInv(c, s) && FrontierInv(c, s) && Enabled(c, s, step)
    ensures FrontierInv(c, Apply(c, s, step))
  {
    hide WorkerDoes, TapDoes, FeedDoes, RoutingInv, ReachInv, ChainInv, c.Valid, StandsBy;
    var s' := Apply(c, s, step);
    forall j | j in s'.marked ensures Standing(c, s', j) {
      match step
      case AtWorker(w, a) =>
        WorkerFrame(c, s, w, a);
        WorkerKeepsStanding(c, s, w, a, j, PARKED);
      case AtTap(t, a) =>
        TapFrame(c, s, t, a);
        TapKeepsStanding(c, s, t, a, j, PARKED);
      case AtFeeder(f, a) => FeederKeepsStanding(c, s, f, a, j);
      case AtOperator(a) => OperatorKeepsStanding(c, s, a, j, PARKED);
    }
  }

  lemma OperatorKeepsStanding(c: Config, s: World, a: OperatorAction, j: string, ok: set<Status>)
    requires StandsBy(c, s, j, ok)
    ensures StandsBy(c, OperatorDoes(c, s, a), j, ok)
  {
    OperatorFrame(c, s, a);
  }

  // ---------------------------------------------------------------- when every mark is followed by its publish

  /** A feeding process that has marked this job at this position and not published it yet. */
  ghost predicate HoldsMarked(feeder: Feeder, jobId: string, k: nat) {
    feeder.Feeding? && exists i :: 0 <= i < |feeder.marked| && feeder.marked[i].job.jobId == jobId && feeder.marked[i].pos == k
  }

  ghost predicate MarkedAt(s: World, jobId: string, k: nat) {
    exists f :: 0 <= f < |s.feeders| && HoldsMarked(s.feeders[f], jobId, k)
  }

  /** No seeding or replay fails or dies between marking a job and publishing it. */
  ghost predicate PublishesItsMarks(s: World, step: Step) {
    step.AtFeeder? && (step.feed.FailFeed? || step.feed.FeederDies?) && step.f < |s.feeders| && s.feeders[step.f].Feeding? ==>
      s.feeders[step.f].marked == []
  }

  /** Then a PENDING row alone never stands for a job: a message, an outcome or the process that marked it does. */
  ghost predicate SteadyInv(c: Config, s: World) {
    forall j :: j in s.marked ==> StandsBy(c, s, j, STOPPED) || MarkedAt(s, j, s.Frontier(j))
  }

  lemma WorkerKeepsSteady(c: Config, s: World, w: nat, a: WorkerAction, j: string)
    requires c.Valid() && RoutingInv(c, s) && ReachInv(c, s) && WorkerCan(c, s, w, a)
    requires StandsBy(c, s, j, STOPPED) || MarkedAt(s, j, s.Frontier(j))
    ensures var s' := WorkerDoes(c, s, w, a); StandsBy(c, s', j, STOPPED) || MarkedAt(s', j, s'.Frontier(j))
  {
    hide WorkerDoes, RoutingInv, ReachInv, c.Valid, RowIn, InHand, AtTap, HoldsMarked;
    WorkerFrame(c, s, w, a);
    if StandsBy(c, s, j, STOPPED) {
      WorkerKeepsStanding(c, s, w, a, j, STOPPED);
    } else if WorkerDoes(c, s, w, a).Frontier(j) != s.Frontier(j) {
      NewFrontierStands(c, s, w, a, j);
    }
  }

  lemma TapKeepsSteady(c: Config, s: World, t: nat, a: TapAction, j: string)
    requires c.Valid() && RoutingInv(c, s) && ChainInv(c, s) && TapCan(c, s, t, a)
    requires StandsBy(c, s, j, STOPPED) || MarkedAt(s, j, s.Frontier(j))
    ensures var s' := TapDoes(c, s, t, a); StandsBy(c, s', j, STOPPED) || MarkedAt(s', j, s'.Frontier(j))
  {
    hide TapDoes, RoutingInv, ChainInv, c.Valid, StandsBy, HoldsMarked;
    TapFrame(c, s, t, a);
    if StandsBy(c, s, j, STOPPED) {
      TapKeepsStanding(c, s, t, a, j, STOPPED);
    }
  }

  /** A feeder that marks or publishes keeps hold of its other marks, and queues what it publishes. */
  lemma OwnMarkStays(c: Config, s: World, f: nat, a: FeedAction, j: string, k: nat)
    requires c.Valid() && RoutingInv(c, s) && FeedCan(c, s, f, a) && PublishesItsMarks(s, AtFeeder(f, a))
    requires HoldsMarked(s.feeders[f], j, k)
    ensures HoldsMarked(FeedDoes(c, s, f, a).feeders[f], j, k) || Queued(FeedDoes(c, s, f, a), j, k)
  {
    hide RowsOk, TapOk, WorkerOk, MessageOk, c.Valid, Upsert, ActiveIds, JobIds, FirstStageItems;
    var me := s.feeders[f];
    var i :| 0 <= i < |me.marked| && me.marked[i].job.jobId == j && me.marked[i].pos == k;
    if a.MarkNext? {
      assert FeedDoes(c, s, f, a).feeders[f].marked[i] == me.marked[i];
    } else if a.PublishMarked? {
      if i == a.i {
        PublishQueues(c, s, f, i);
      } else {
        OtherIndexStays(me.marked, a.i, i);
      }
    }
  }

  lemma OtherIndexStays(items: seq<Item>, i: nat, j: nat)
    requires i < |items| && j < |items| && i != j
    ensures exists x :: 0 <= x < |Without(items, i)| && Without(items, i)[x] == items[j]
  {
    assert Without(items, i)[if j < i then j else j - 1] == items[j];
  }

  lemma PublishQueues(c: Config, s: World, f: nat, i: nat)
    requires c.Valid() && RoutingInv(c, s) && FeedCan(c, s, f, PublishMarked(i))
    ensures Queued(FeedDoes(c, s, f, PublishMarked(i)), s.feeders[f].marked[i].job.jobId, s.feeders[f].marked[i].pos)
  {
    hide c.Valid, RowsOk, TapOk, WorkerOk, MessageOk;
    assert FeederOk(c, s.declared, s.feeders[f]);
    var item := s.feeders[f].marked[i];
    assert Declared(c, s.declared, item.job.partitionKey);
    InputQueueOf(c, item.pos, item.job.partitionKey);
    QueueDeclared(c, s.declared, item.pos, item.job.partitionKey);
    assert Message(c.Queue(item.pos, item.job.partitionKey), item.pos, item.job) in FeedDoes(c, s, f, PublishMarked(i)).ready;
  }

  /** A row leaves its status only when this feeder marks its job at its position. */
  lemma StoppedRowStands(c: Config, s: World, f: nat, a: FeedAction, j: string, k: nat)
    requires c.Valid() && RoutingInv(c, s) && FeedCan(c, s, f, a)
    requires RowIn(c, s.db.rows, j, k, STOPPED)
    ensures RowIn(c, FeedDoes(c, s, f, a).db.rows, j, k, STOPPED) || HoldsMarked(FeedDoes(c, s, f, a).feeders[f], j, k)
  {
    hide RowsOk, TapOk, WorkerOk, ActiveIds, JobIds, FirstStageItems, c.Valid;
    if a.MarkNext? {
      assert FeederOk(c, s.declared, s.feeders[f]);
      var item := s.feeders[f].todo[0];
      NewMarkIsHeld(c, s, f, a);
      assert JobOk(c, item.job) && item.pos < c.N();
      if c.Key(item.job.jobId, item.pos) == c.Key(j, k) {
        KeysDistinct(c, item.job.jobId, item.pos, j, k);
      }
    }
  }

  lemma NewMarkIsHeld(c: Config, s: World, f: nat, a: FeedAction)
    requires FeedCan(c, s, f, a) && a.MarkNext?
    ensures var item := s.feeders[f].todo[0]; HoldsMarked(FeedDoes(c, s, f, a).feeders[f], item.job.jobId, item.pos)
  {
    var item := s.feeders[f].todo[0];
    assert FeedDoes(c, s, f, a).feeders[f].marked[|s.feeders[f].marked|] == item;
  }

  lemma FirstMarkIsHeld(c: Config, s: World, f: nat, a: FeedAction, j: string)
    requires c.Valid() && RoutingInv(c, s) && ReachInv(c, s) && FeedCan(c, s, f, a)
    requires j in FeedDoes(c, s, f, a).marked && j !in s.marked
    ensures HoldsMarked(FeedDoes(c, s, f, a).feeders[f], j, s.Frontier(j))
  {
    hide RowsOk, TapOk, WorkerOk, WorkerWithin, TerminalJobs, RowsWithin, ActiveIds, JobIds, FirstStageItems, HoldsMarked;
    assert FeederWithin(s, s.feeders[f]);
    NewMarkIsHeld(c, s, f, a);
    assert s.feeders[f].todo[0].pos <= s.Frontier(j) == 0;
  }

  lemma FeederKeepsSteady(c: Config, s: World, f: nat, a: FeedAction, j: string)
    requires c.Valid() && RoutingInv(c, s) && ReachInv(c, s) && FeedCan(c, s, f, a) && PublishesItsMarks(s, AtFeeder(f, a))
    requires j in FeedDoes(c, s, f, a).marked
    requires j in s.marked ==> StandsBy(c, s, j, STOPPED) || MarkedAt(s, j, s.Frontier(j))
    ensures var s' := FeedDoes(c, s, f, a); StandsBy(c, s', j, STOPPED) || MarkedAt(s', j, s'.Frontier(j))
  {
    hide FeedDoes, RoutingInv, ReachInv, RowIn, LiveAt, Holds, HoldsMarked, TerminalIds, c.Valid, PublishesItsMarks;
    var k := s.Frontier(j);
    var s' := FeedDoes(c, s, f, a);
    FeederFrame(c, s, f, a);
    FeederFrontier(c, s, f, a, j);
    if j !in s.marked {
      FirstMarkIsHeld(c, s, f, a, j);
    } else if RowIn(c, s.db.rows, j, k, STOPPED) {
      StoppedRowStands(c, s, f, a, j, k);
    } else if MarkedAt(s, j, k) {
      var g :| 0 <= g < |s.feeders| && HoldsMarked(s.feeders[g], j, k);
      if g == f {
        OwnMarkStays(c, s, f, a, j, k);
      } else {
        assert s'.feeders[g] == s.feeders[g];
      }
    }
  }

  lemma StepKeepsSteady(c: Config, s: World, step: Step)
    requires c.Valid() && RoutingInv(c, s) && ReachInv(c, s) && ChainInv(c, s) && SteadyInv(c, s)
    requires Enabled(c, s, step) && PublishesItsMarks(s, step)
    ensures SteadyInv(c, Apply(c, s, step))
  {
    hide WorkerDoes, TapDoes, FeedDoes, RoutingInv, ReachInv, ChainInv, c.Valid, StandsBy, HoldsMarked;
    var s' := Apply(c, s, step);
    forall j | j in s'.marked ensures StandsBy(c, s', j, STOPPED) || MarkedAt(s', j, s'.Frontier(j)) {
      match step
      case AtWorker(w, a) =>
        WorkerFrame(c, s, w, a);
        WorkerKeepsSteady(c, s, w, a, j);
      case AtTap(t, a) =>
        TapFrame(c, s, t, a);
        TapKeepsSteady(c, s, t, a, j);
      case AtFeeder(f, a) => FeederKeepsSteady(c, s, f, a, j);
      case AtOperator(a) =>
        OperatorFrame(c, s, a);
        if StandsBy(c, s, j, STOPPED) {
          OperatorKeepsStanding(c, s, a, j, STOPPED);
        }
    }
  }
}
