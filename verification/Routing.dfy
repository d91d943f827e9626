/** Every message is in the queue of its position, every row names the queue it was taken from, no publish is dropped. */
module Routing {
  import opened Common
  import opened Targeting
  import opened Manifest
  import opened Jobs
  import opened Documents
  import opened Protocol

  ghost predicate JobOk(c: Config, job: Job) {
    job.runId == c.Run() && job.Resolved()
  }

  ghost predicate Declared(c: Config, declared: set<string>, key: string) {
    c.manifest.PartitionQueueSet(key) <= declared
  }

  ghost predicate MessageOk(c: Config, declared: set<string>, m: Message)
    requires c.Valid()
  {
    && m.pos <= c.N() && JobOk(c, m.job)
    && m.queue == c.Queue(m.pos, m.job.partitionKey)
    && Declared(c, declared, m.job.partitionKey)
  }

  function PhaseJob(phase: Phase): Option<Job> {
    if phase.Idle? || phase.Recorded? then None else Some(phase.job)
  }

  /** The frames a connection can have in flight at each control point. */
  ghost predicate FramesOk(worker: Worker)
    requires worker.unacked.Some?
  {
    match worker.phase
    case Idle =>
      || worker.frames == [Ack] || worker.frames == [Nack]
      || (|worker.frames| == 2 && worker.frames[0].Publish? && worker.frames[1] == Ack)
    case Sent(_) => worker.frames == [] || (|worker.frames| == 1 && worker.frames[0].Publish?)
    case Recorded => worker.frames == [] || (|worker.frames| == 1 && worker.frames[0].Publish?)
    case _ => worker.frames == []
  }

  ghost predicate WorkerOk(c: Config, declared: set<string>, stage: nat, worker: Worker)
    requires c.Valid()
  {
    match worker.unacked
    case None => worker == IDLE_WORKER
    case Some(m) =>
      && m.pos == stage && stage < c.N() && MessageOk(c, declared, m)
      && FramesOk(worker)
      && (worker.phase.Received? ==> worker.phase.job == m.job)
      && (PhaseJob(worker.phase).Some? ==> m.job.KeepsIdentity(PhaseJob(worker.phase).value))
      && (worker.frames != [] && worker.frames[0].Publish? ==>
            var out := worker.frames[0].message;
            out.pos == stage + 1 && m.job.KeepsIdentity(out.job) && MessageOk(c, declared, out))
  }

  ghost predicate TapOk(c: Config, declared: set<string>, tap: Tap)
    requires c.Valid()
  {
    && (forall i :: 0 <= i < |tap.held| ==> tap.held[i].pos == c.N() && MessageOk(c, declared, tap.held[i]))
    && (tap.phase.Off? || tap.phase.Opening? ==> tap.held == [])
    && (tap.phase.WritingRows? || tap.phase.AppendingEvents? ==> tap.phase.next < |tap.held|)
    && (tap.phase.Acking? ==> tap.phase.next <= |tap.held| && tap.held != [])
  }

  ghost predicate ItemsOk(c: Config, items: seq<Item>) {
    forall i :: 0 <= i < |items| ==> items[i].pos < c.N() && JobOk(c, items[i].job)
  }

  ghost predicate FeederOk(c: Config, declared: set<string>, feeder: Feeder) {
    match feeder
    case Resting => true
    case Reading(todo) => ItemsOk(c, todo)
    case Feeding(_, keys, todo, marked) =>
      && ItemsOk(c, todo) && ItemsOk(c, marked)
      && (forall key :: key in keys ==> Declared(c, declared, key))
      && (forall i :: 0 <= i < |marked| ==> marked[i].job.partitionKey in keys)
  }

  /** A row agrees with the job it stores, and its queue is the input queue of its position. */
  ghost predicate RowOk(c: Config, jobId: string, k: nat, row: Row)
    requires c.Valid() && k <= c.N()
  {
    && JobOk(c, row.job) && row.job.jobId == jobId
    && row.partitionKey == row.job.partitionKey && row.targetTags == row.job.targetTags
    && row.queueName == c.Queue(k, row.partitionKey)
  }

  ghost predicate RowsOk(c: Config, rows: Rows)
    requires c.Valid()
  {
    && (forall key :: key in rows ==> exists k: nat :: k <= c.N() && key == c.Key(key.jobId, k))
    && (forall j, k: nat {:trigger c.Key(j, k)} :: k <= c.N() && c.Key(j, k) in rows ==> RowOk(c, j, k, rows[c.Key(j, k)]))
  }

  ghost predicate RoutingInv(c: Config, s: World)
    requires c.Valid()
  {
    && |s.workers| == |c.slots|
    && (forall m :: m in s.ready ==> MessageOk(c, s.declared, m))
    && (forall w :: 0 <= w < |s.workers| ==> WorkerOk(c, s.declared, c.slots[w].stage, s.workers[w]))
    && (forall t :: 0 <= t < |s.taps| ==> TapOk(c, s.declared, s.taps[t]))
    && (forall f :: 0 <= f < |s.feeders| ==> FeederOk(c, s.declared, s.feeders[f]))
    && RowsOk(c, s.db.rows)
  }

  // ---------------------------------------------------------------- positions are decided by names

  lemma QueueDeclared(c: Config, declared: set<string>, k: nat, key: string)
    requires c.Valid() && k <= c.N() && Declared(c, declared, key)
    ensures c.Queue(k, key) in declared
  {
    c.manifest.PartitionQueueSetCovers(key);
  }

  lemma InputQueueOf(c: Config, k: nat, key: string)
    requires c.Valid() && k < c.N()
    ensures c.manifest.StageInputQueue(c.Name(k), key) == Some(c.Queue(k, key))
  {
    c.manifest.RoutesChain(k, key);
  }

  /** A message in a queue a stage consumes is at that stage's position, whichever partition the queue belongs to. */
  lemma DeliveredAtItsStage(c: Config, declared: set<string>, w: nat, m: Message)
    requires c.Valid() && w < |c.slots| && MessageOk(c, declared, m)
    requires Subscribed(c, w, m.queue)
    ensures m.pos == c.slots[w].stage
    ensures exists p :: p in c.slots[w].partitions && SameKey(p, m.job.partitionKey)
  {
    var k := c.slots[w].stage;
    var p :| p in c.slots[w].partitions && c.manifest.StageInputQueue(c.Name(k), p) == Some(m.queue);
    c.manifest.RoutesChain(k, p);
    c.manifest.QueueNamesInjective(k, p, m.pos, m.job.partitionKey);
  }

  lemma WatchedIsFinal(c: Config, declared: set<string>, tap: Tap, m: Message)
    requires c.Valid() && MessageOk(c, declared, m)
    requires Watched(c, tap, m.queue)
    ensures m.pos == c.N()
  {
    var p :| p in tap.partitions && c.manifest.StageOutputQueue(c.Name(c.N() - 1), p) == Some(m.queue);
    c.manifest.RoutesChain(c.N() - 1, p);
    c.manifest.QueueNamesInjective(c.N(), p, m.pos, m.job.partitionKey);
  }

  /** The envelope a busy connection works on is this run's, of the delivered job. */
  lemma HeldJob(c: Config, s: World, w: nat)
    requires c.Valid() && RoutingInv(c, s) && w < |s.workers|
    requires PhaseJob(s.workers[w].phase).Some?
    ensures s.workers[w].unacked.Some? && c.slots[w].stage < c.N()
    ensures PhaseJob(s.workers[w].phase).value.runId == c.Run()
    ensures PhaseJob(s.workers[w].phase).value.jobId == s.workers[w].unacked.value.job.jobId
  {
    hide RowsOk, TapOk, FeederOk;
    assert WorkerOk(c, s.declared, c.slots[w].stage, s.workers[w]);
  }

  lemma KeysDistinct(c: Config, j: string, k: nat, i: string, l: nat)
    requires c.Valid() && k <= c.N() && l <= c.N()
    requires c.Key(j, k) == c.Key(i, l)
    ensures j == i && k == l
  {
    c.manifest.StageNameInjective(k, l);
  }

  /** Writing the row of one (job, position) leaves the other rows alone. */
  lemma RowsOkAfterWrite(c: Config, before: Rows, after: Rows, jobId: string, k: nat)
    requires c.Valid() && k <= c.N() && RowsOk(c, before)
    requires c.Key(jobId, k) in after && after == before[c.Key(jobId, k) := after[c.Key(jobId, k)]]
    requires RowOk(c, jobId, k, after[c.Key(jobId, k)])
    ensures RowsOk(c, after)
  {
    forall j, l: nat {:trigger c.Key(j, l)} | l <= c.N() && c.Key(j, l) in after ensures RowOk(c, j, l, after[c.Key(j, l)]) {
      if c.Key(j, l) == c.Key(jobId, k) {
        KeysDistinct(c, j, l, jobId, k);
      }
    }
    forall key | key in after ensures exists l: nat :: l <= c.N() && key == c.Key(key.jobId, l) {
      if key == c.Key(jobId, k) {
        assert key == c.Key(key.jobId, k);
      }
    }
  }

  // ---------------------------------------------------------------- preservation

  lemma InitialRouting(c: Config, s: World)
    requires c.Valid() && Initial(c, s)
    ensures RoutingInv(c, s)
  {
  }

  lemma WorkerKeepsRows(c: Config, s: World, w: nat, a: WorkerAction)
    requires c.Valid() && RoutingInv(c, s) && WorkerCan(c, s, w, a)
    ensures RowsOk(c, WorkerDoes(c, s, w, a).db.rows)
  {
    hide WorkerDoes, TapOk, FeederOk, RowsOk, DerivePartitionKey;
    var me := s.workers[w];
    var k := c.slots[w].stage;
    assert WorkerOk(c, s.declared, k, me);
    if !WritesRow(a) {
      WorkerLeavesRows(c, s, w, a);
    } else {
      WorkerWritesRow(c, s, w, a);
      HeldJob(c, s, w);
      ResolveIsStable(me.unacked.value.job, me.phase.job);
      RowsOkAfterWrite(c, s.db.rows, WorkerDoes(c, s, w, a).db.rows, me.phase.job.jobId, k);
    }
  }

  lemma WorkerKeepsMessages(c: Config, s: World, w: nat, a: WorkerAction)
    requires c.Valid() && RoutingInv(c, s) && WorkerCan(c, s, w, a)
    ensures forall m :: m in WorkerDoes(c, s, w, a).ready ==> MessageOk(c, s.declared, m)
  {
    assert WorkerOk(c, s.declared, c.slots[w].stage, s.workers[w]);
  }

  predicate OnChannel(a: WorkerAction) {
    a.Deliver? || a.BrokerHandles? || a.Crash? || a.SendPublish? || a.SendAck? || a.StopNack?
  }

  lemma ChannelWorkStaysOk(c: Config, s: World, w: nat, a: WorkerAction)
    requires c.Valid() && RoutingInv(c, s) && WorkerCan(c, s, w, a) && OnChannel(a) && !a.SendPublish?
    ensures WorkerOk(c, s.declared, c.slots[w].stage, WorkerDoes(c, s, w, a).workers[w])
  {
    hide RowsOk, TapOk, FeederOk, MessageOk, c.Valid, Subscribed;
    if a.Deliver? {
      DeliveryStaysOk(c, s, w, a.i);
    } else if a.BrokerHandles? {
      BrokerStaysOk(c, s, w);
    } else {
      assert WorkerOk(c, s.declared, c.slots[w].stage, s.workers[w]);
    }
  }

  lemma DeliveryStaysOk(c: Config, s: World, w: nat, i: nat)
    requires c.Valid() && RoutingInv(c, s) && WorkerCan(c, s, w, Deliver(i))
    ensures WorkerOk(c, s.declared, c.slots[w].stage, WorkerDoes(c, s, w, Deliver(i)).workers[w])
  {
    hide RowsOk, TapOk, FeederOk, MessageOk, c.Valid, Subscribed;
    DeliveredAtItsStage(c, s.declared, w, s.ready[i]);
  }

  lemma BrokerStaysOk(c: Config, s: World, w: nat)
    requires c.Valid() && RoutingInv(c, s) && WorkerCan(c, s, w, BrokerHandles)
    ensures WorkerOk(c, s.declared, c.slots[w].stage, WorkerDoes(c, s, w, BrokerHandles).workers[w])
  {
    hide RowsOk, TapOk, FeederOk, MessageOk, c.Valid;
    assert WorkerOk(c, s.declared, c.slots[w].stage, s.workers[w]);
  }

  /** What a worker publishes goes to the queue of the next position. */
  lemma OutgoingOk(c: Config, declared: set<string>, stage: nat, m: Message, job: Job)
    requires c.Valid() && stage < c.N() && MessageOk(c, declared, m) && m.job.KeepsIdentity(job)
    ensures c.manifest.StageOutputQueue(c.Name(stage), job.partitionKey).Some?
    ensures MessageOk(c, declared, Message(c.manifest.StageOutputQueue(c.Name(stage), job.partitionKey).value, stage + 1, job))
  {
    hide DerivePartitionKey;
    c.manifest.RoutesChain(stage, job.partitionKey);
    ResolveIsStable(m.job, job);
  }

  lemma PublishStaysOk(c: Config, s: World, w: nat, a: WorkerAction)
    requires c.Valid() && RoutingInv(c, s) && WorkerCan(c, s, w, a) && a.SendPublish?
    ensures WorkerOk(c, s.declared, c.slots[w].stage, WorkerDoes(c, s, w, a).workers[w])
  {
    hide RowsOk, TapOk, FeederOk, MessageOk, c.Valid;
    var me := s.workers[w];
    assert WorkerOk(c, s.declared, c.slots[w].stage, me);
    OutgoingOk(c, s.declared, c.slots[w].stage, me.unacked.value, me.phase.job);
  }

  /** The envelope in hand after work that sends nothing. */
  function WorkedOn(a: WorkerAction, job: Job): Job {
    match a
    case CheckHold => job.Resolve()
    case HandlerReturns(updated) => updated
    case HandlerRaises(left, _) => left
    case _ => job
  }

  /** Control points past the handler of a successful call. */
  predicate PastHandler(phase: Phase) {
    phase.HandlerReturned? || phase.OutputLogged? || phase.Sent?
  }

  /** Work that sends nothing only moves the control point. */
  lemma LocalMoves(c: Config, s: World, w: nat, a: WorkerAction)
    requires WorkerCan(c, s, w, a) && !OnChannel(a)
    ensures var me, me' := s.workers[w], WorkerDoes(c, s, w, a).workers[w];
            && WorkerDoes(c, s, w, a).ready == s.ready
            && me' == me.(phase := me'.phase) && PhaseJob(me.phase).Some?
            && (PhaseJob(me'.phase).Some? ==> PhaseJob(me'.phase) == Some(WorkedOn(a, PhaseJob(me.phase).value)))
            && !me'.phase.Idle? && !me'.phase.Received? && !me'.phase.Sent?
            && (a.HandlerReturns? || a.HandlerRaises? ==> me.phase.Started? && PhaseJob(me.phase).value.KeepsIdentity(WorkedOn(a, PhaseJob(me.phase).value)))
            && (a.HandlerReturns? ==> me'.phase.HandlerReturned?)
            && (me.phase.Sent? ==> me'.phase.Recorded?)
            && (!a.HandlerReturns? && !me'.phase.Recorded? ==> PastHandler(me'.phase) == PastHandler(me.phase))
  {
    hide ActiveHold, LedgerSize, Upsert, DerivePartitionKey, Subscribed;
  }

  lemma LocalWorkStaysOk(c: Config, s: World, w: nat, a: WorkerAction)
    requires c.Valid() && RoutingInv(c, s) && WorkerCan(c, s, w, a) && !OnChannel(a)
    ensures WorkerOk(c, s.declared, c.slots[w].stage, WorkerDoes(c, s, w, a).workers[w])
  {
    hide WorkerDoes, DerivePartitionKey, c.Valid, RowsOk, TapOk, FeederOk, Declared, ActiveHold, LedgerSize;
    var me := s.workers[w];
    LocalMoves(c, s, w, a);
    assert WorkerOk(c, s.declared, c.slots[w].stage, me);
    assert JobOk(c, me.unacked.value.job);
    ResolveIsStable(me.unacked.value.job, PhaseJob(me.phase).value);
  }

  lemma WorkerKeepsRouting(c: Config, s: World, w: nat, a: WorkerAction)
    requires c.Valid() && RoutingInv(c, s) && WorkerCan(c, s, w, a)
    ensures RoutingInv(c, WorkerDoes(c, s, w, a))
  {
    hide WorkerDoes, WorkerOk, MessageOk, TapOk, FeederOk, RowsOk, c.Valid;
    WorkerFrame(c, s, w, a);
    WorkerKeepsRows(c, s, w, a);
    WorkerKeepsMessages(c, s, w, a);
    if a.SendPublish? {
      PublishStaysOk(c, s, w, a);
    } else if OnChannel(a) {
      ChannelWorkStaysOk(c, s, w, a);
    } else {
      LocalWorkStaysOk(c, s, w, a);
    }
  }

  lemma TapStaysOk(c: Config, s: World, t: nat, a: TapAction)
    requires c.Valid() && RoutingInv(c, s) && TapCan(c, s, t, a)
    ensures TapOk(c, s.declared, TapDoes(c, s, t, a).taps[t])
    ensures forall m :: m in TapDoes(c, s, t, a).ready ==> MessageOk(c, s.declared, m)
  {
    hide c.Valid, MessageOk, TerminalIds, ExpectedCount, MarkTerminal;
    assert TapOk(c, s.declared, s.taps[t]);
    if a.TapReceives? {
      WatchedIsFinal(c, s.declared, s.taps[t], s.ready[a.i]);
    }
  }

  lemma TapKeepsRows(c: Config, s: World, t: nat, a: TapAction)
    requires c.Valid() && RoutingInv(c, s) && TapCan(c, s, t, a)
    ensures RowsOk(c, TapDoes(c, s, t, a).db.rows)
  {
    assert TapOk(c, s.declared, s.taps[t]);
    if a.WriteTerminalRow? {
      var m := s.taps[t].held[s.taps[t].phase.next];
      RowsOkAfterWrite(c, s.db.rows, TapDoes(c, s, t, a).db.rows, m.job.jobId, c.N());
    }
  }

  lemma TapKeepsRouting(c: Config, s: World, t: nat, a: TapAction)
    requires c.Valid() && RoutingInv(c, s) && TapCan(c, s, t, a)
    ensures RoutingInv(c, TapDoes(c, s, t, a))
  {
    hide TapDoes, WorkerOk, MessageOk, TapOk, FeederOk, RowsOk, c.Valid;
    TapFrame(c, s, t, a);
    TapStaysOk(c, s, t, a);
    TapKeepsRows(c, s, t, a);
  }

  lemma FeederKeepsRows(c: Config, s: World, f: nat, a: FeedAction)
    requires c.Valid() && RoutingInv(c, s) && FeedCan(c, s, f, a)
    ensures RowsOk(c, FeedDoes(c, s, f, a).db.rows)
  {
    if a.MarkNext? {
      assert FeederOk(c, s.declared, s.feeders[f]);
      var item := s.feeders[f].todo[0];
      assert JobOk(c, item.job);
      c.manifest.RoutesChain(item.pos, item.job.partitionKey);
      RowsOkAfterWrite(c, s.db.rows, FeedDoes(c, s, f, a).db.rows, item.job.jobId, item.pos);
    }
  }

  lemma ReadRowIsOk(c: Config, s: World, jobId: string, pos: nat)
    requires c.Valid() && RoutingInv(c, s) && pos < c.N() && c.Key(jobId, pos) in s.db.rows
    ensures JobOk(c, s.db.rows[c.Key(jobId, pos)].job.Resolve())
    ensures s.db.rows[c.Key(jobId, pos)].job.Resolve().jobId == jobId
  {
    hide MessageOk, WorkerOk, TapOk, FeederOk, DerivePartitionKey;
    assert RowOk(c, jobId, pos, s.db.rows[c.Key(jobId, pos)]);
  }

  lemma SeedItemsAreOk(c: Config, s: World, jobs: seq<Job>)
    requires Seedable(c, s, jobs)
    ensures ItemsOk(c, FirstStageItems(jobs))
  {
    hide DerivePartitionKey;
    forall i | 0 <= i < |jobs| ensures JobOk(c, jobs[i].Resolve()) {
      ResolveIsStable(jobs[i], jobs[i].Resolve());
    }
  }

  lemma FeederStaysOk(c: Config, s: World, f: nat, a: FeedAction)
    requires c.Valid() && RoutingInv(c, s) && FeedCan(c, s, f, a)
    ensures FeederOk(c, FeedDoes(c, s, f, a).declared, FeedDoes(c, s, f, a).feeders[f])
  {
    hide MarkPending, AddBatch, SetBatchStatus, MessageOk, WorkerOk, TapOk, RowsOk, JobOk, FirstStageItems, c.Valid, ActiveIds, JobIds;
    var me := s.feeders[f];
    assert FeederOk(c, s.declared, me);
    match a
    case Seed(jobs) => SeedItemsAreOk(c, s, jobs);
    case ReadRow(jobId, pos) => ReadRowIsOk(c, s, jobId, pos);
    case _ =>
  }

  lemma FeederKeepsMessages(c: Config, s: World, f: nat, a: FeedAction)
    requires c.Valid() && RoutingInv(c, s) && FeedCan(c, s, f, a)
    ensures forall m :: m in FeedDoes(c, s, f, a).ready ==> MessageOk(c, s.declared, m)
  {
    if a.PublishMarked? {
      var me := s.feeders[f];
      assert FeederOk(c, s.declared, me);
      var item := me.marked[a.i];
      assert JobOk(c, item.job) && item.pos < c.N() && Declared(c, s.declared, item.job.partitionKey);
      c.manifest.RoutesChain(item.pos, item.job.partitionKey);
    }
  }

  /** Declaring more queues breaks nothing. */
  lemma DeclaringKeepsRouting(c: Config, s: World, more: set<string>)
    requires c.Valid() && RoutingInv(c, s) && s.declared <= more
    ensures RoutingInv(c, s.(declared := more))
  {
    hide c.Valid, RowsOk, FramesOk;
    assert forall m :: MessageOk(c, s.declared, m) ==> MessageOk(c, more, m);
    forall w | 0 <= w < |s.workers| ensures WorkerOk(c, more, c.slots[w].stage, s.workers[w]) {
      assert WorkerOk(c, s.declared, c.slots[w].stage, s.workers[w]);
    }
    forall f | 0 <= f < |s.feeders| ensures FeederOk(c, more, s.feeders[f]) {
      assert FeederOk(c, s.declared, s.feeders[f]);
    }
  }

  lemma FeederKeepsRouting(c: Config, s: World, f: nat, a: FeedAction)
    requires c.Valid() && RoutingInv(c, s) && FeedCan(c, s, f, a)
    ensures RoutingInv(c, FeedDoes(c, s, f, a))
  {
    hide FeedDoes, WorkerOk, MessageOk, TapOk, FeederOk, RowsOk, c.Valid;
    var s' := FeedDoes(c, s, f, a);
    FeederFrame(c, s, f, a);
    FeederStaysOk(c, s, f, a);
    FeederKeepsRows(c, s, f, a);
    FeederKeepsMessages(c, s, f, a);
    DeclaringKeepsRouting(c, s, s'.declared);
    assert RoutingInv(c, s.(declared := s'.declared));
    forall m | m in s'.ready ensures MessageOk(c, s'.declared, m) {
      MessageStaysOk(c, s.declared, s'.declared, m);
    }
  }

  lemma MessageStaysOk(c: Config, declared: set<string>, more: set<string>, m: Message)
    requires c.Valid() && declared <= more && MessageOk(c, declared, m)
    ensures MessageOk(c, more, m)
  {
  }

  /** The routing invariant holds after every step, whatever crashes, duplicates, holds and replays there are. */
  lemma StepKeepsRouting(c: Config, s: World, step: Step)
    requires c.Valid() && RoutingInv(c, s) && Enabled(c, s, step)
    ensures RoutingInv(c, Apply(c, s, step))
  {
    hide WorkerDoes, TapDoes, FeedDoes, WorkerOk, MessageOk, TapOk, FeederOk, RowsOk, c.Valid;
    match step
    case AtWorker(w, a) => WorkerKeepsRouting(c, s, w, a);
    case AtTap(t, a) => TapKeepsRouting(c, s, t, a);
    case AtFeeder(f, a) => FeederKeepsRouting(c, s, f, a);
    case AtOperator(a) => OperatorFrame(c, s, a);
  }
}
