/**
 * The pipeline of one run as a transition system: broker queues, worker connections, terminal taps, seeding and
 * replay processes and operators, over the stored documents. Every database write, broker method and read whose
 * result is used later is a step of its own, and a crash may come between any two.
 *
 * Broker assumptions: an unacknowledged delivery becomes ready again when its connection closes (AMQP 0-9-1,
 * section 3.1.8); the methods a client sends on one channel take effect in the order sent (section 4.7), so a
 * connection that closes loses a suffix of them; publishing to a queue that was never declared drops the message.
 */
module Protocol {
  import opened Common
  import opened Targeting
  import opened Manifest
  import opened Jobs
  import opened Documents

  // ---------------------------------------------------------------- configuration

  /** A worker connection: the stage whose handler it runs and the partitions whose queues it consumes. */
  datatype Slot = Slot(stage: nat, partitions: set<string>)

  datatype Config = Config(manifest: RunManifest, slots: seq<Slot>, maxAttempts: int, retryDelay: int, batchSize: int)
  {
    function N(): nat { |manifest.stages| }

    ghost predicate Valid() {
      && manifest.WellFormed()
      && manifest.DistinctNames()
      && forall w :: 0 <= w < |slots| ==> slots[w].stage < N()
    }

    function Run(): string { manifest.runId }

    function Name(k: nat): string { manifest.StageName(k) }

    function Key(jobId: string, k: nat): RowKey { RowKey(Run(), jobId, Name(k)) }

    function Queue(k: nat, key: string): string
      requires Valid() && k <= N()
    {
      manifest.QueueAt(k, key)
    }
  }

  // ---------------------------------------------------------------- state

  /** A queued envelope. `pos` only labels where the publisher meant it to go; routing looks at `queue` alone. */
  datatype Message = Message(queue: string, pos: nat, job: Job)

  /** A method sent on a worker's channel and not yet handled by the broker. */
  datatype Frame = Publish(message: Message) | Ack | Nack

  /** Control points of one `_on_message` call, in program order. */
  datatype Phase =
    | Idle
    | Received(job: Job)
    | HoldFound(job: Job, hold: Hold)
    | Clear(job: Job)
    | MarkedRunning(job: Job)
    | Started(job: Job)
    | HandlerReturned(job: Job)
    | HandlerRaised(job: Job, detail: string)
    | Counted(job: Job, detail: string, count: nat)
    | Inserted(job: Job, detail: string, number: nat, action: Action)
    | OutputLogged(job: Job)
    | Sent(job: Job)
    | Recorded

  datatype Worker = Worker(unacked: Option<Message>, frames: seq<Frame>, phase: Phase)

  const IDLE_WORKER: Worker := Worker(None, [], Idle)

  datatype TapPhase = Off | Opening | Collecting | WritingRows(next: nat) | AppendingEvents(next: nat) | Acking(next: nat)

  /** A terminal tap. `held` is `_pending` while collecting and the batch being recorded during a flush. */
  datatype Tap = Tap(partitions: set<string>, phase: TapPhase, held: seq<Message>, known: set<string>, done: bool)
  {
    /** Deliveries the broker still counts as unacknowledged. */
    function Unacked(): seq<Message> {
      if phase.Acking? && phase.next <= |held| then held[phase.next..] else held
    }
  }

  const OFF_TAP: Tap := Tap({}, Off, [], {}, false)

  datatype Item = Item(pos: nat, job: Job)

  /** A seeding or replay process. */
  datatype Feeder =
    | Resting
    | Reading(todo: seq<Item>)
    | Feeding(batch: Option<nat>, declared: set<string>, todo: seq<Item>, marked: seq<Item>)

  /**
   * `reach` and `settled` are history: the furthest position at which the broker accepted each job, and the jobs
   * a tap has acknowledged. `marked` holds the jobs some process has marked pending.
   */
  datatype World = World(
    db: Db,
    now: int,
    ready: seq<Message>,
    declared: set<string>,
    workers: seq<Worker>,
    taps: seq<Tap>,
    feeders: seq<Feeder>,
    marked: set<string>,
    reach: map<string, nat>,
    settled: set<string>)
  {
    function Frontier(jobId: string): nat {
      if jobId in reach then reach[jobId] else 0
    }

    /** The broker accepts a message on a declared queue and drops it otherwise. */
    function Accept(m: Message): World {
      if m.queue in declared then
        this.(ready := ready + [m],
              reach := reach[m.job.jobId := if Frontier(m.job.jobId) <= m.pos then m.pos else Frontier(m.job.jobId)])
      else this
    }

    function SetWorker(w: nat, worker: Worker): World
      requires w < |workers|
    {
      this.(workers := workers[w := worker])
    }

    function SetTap(t: nat, tap: Tap): World
      requires t < |taps|
    {
      this.(taps := taps[t := tap])
    }

    function SetFeeder(f: nat, feeder: Feeder): World
      requires f < |feeders|
    {
      this.(feeders := feeders[f := feeder])
    }
  }

  /** A run that has been set up: base queues declared, nothing stored, any number of taps and feeders to come. */
  ghost predicate Initial(c: Config, s: World)
    requires c.Valid()
  {
    && s.db == EMPTY_DB && s.ready == [] && s.marked == {} && s.reach == map[] && s.settled == {}
    && s.declared == c.manifest.PartitionQueueSet(DEFAULT_PARTITION_KEY)
    && |s.workers| == |c.slots|
    && (forall w :: 0 <= w < |s.workers| ==> s.workers[w] == IDLE_WORKER)
    && (forall t :: 0 <= t < |s.taps| ==> s.taps[t] == OFF_TAP)
    && (forall f :: 0 <= f < |s.feeders| ==> s.feeders[f] == Resting)
  }

  // ---------------------------------------------------------------- steps

  datatype WorkerAction =
    | Deliver(i: nat)
    | StopNack
    | CheckHold
    | WriteHeld
    | WriteRunning
    | AppendStarted
    | HandlerReturns(updated: Job)
    | HandlerRaises(left: Job, detail: string)
    | CountAttempts
    | AddAttempt
    | RecordFailure
    | AppendOutput
    | SendPublish
    | WriteCompleted
    | SendAck
    | BrokerHandles
    | Crash

  datatype TapAction =
    | StartTap(partitions: set<string>)
    | CheckStart
    | TapReceives(i: nat)
    | BeginFlush
    | WriteTerminalRow
    | AppendTerminalEvent
    | AckHeld
    | EndFlush
    | TapCloses

  datatype FeedAction =
    | Seed(jobs: seq<Job>)
    | OpenReplay
    | ReadRow(jobId: string, pos: nat)
    | CloseReplayRead
    | DeclareNext
    | MarkNext
    | PublishMarked(i: nat)
    | FinishFeed
    | FailFeed
    | FeederDies

  datatype OperatorAction =
    | Tick(later: nat)
    | PlaceHold(selectors: seq<Selector>, blockedUntil: Option<int>)
    | LiftHold(i: nat, lifted: seq<Selector>)

  datatype Step =
    | AtWorker(w: nat, work: WorkerAction)
    | AtTap(t: nat, tapWork: TapAction)
    | AtFeeder(f: nat, feed: FeedAction)
    | AtOperator(op: OperatorAction)

  /** A worker takes a message only from the queues it subscribed to by name. */
  predicate Subscribed(c: Config, w: nat, queue: string)
    requires w < |c.slots|
  {
    exists p :: p in c.slots[w].partitions && c.manifest.StageInputQueue(c.Name(c.slots[w].stage), p) == Some(queue)
  }

  predicate WorkerCan(c: Config, s: World, w: nat, a: WorkerAction) {
    && w < |s.workers| && w < |c.slots| && c.slots[w].stage < c.N()
    && var me := s.workers[w];
       match a
       case Deliver(i) => me == IDLE_WORKER && i < |s.ready| && Subscribed(c, w, s.ready[i].queue)
       case StopNack => me.phase.Received?
       case CheckHold => me.phase.Received?
       case WriteHeld => me.phase.HoldFound? && me.unacked.Some?
       case WriteRunning => me.phase.Clear? && me.unacked.Some?
       case AppendStarted => me.phase.MarkedRunning?
       case HandlerReturns(updated) =>
         me.phase.Started? && me.phase.job.KeepsIdentity(updated) && updated.stepIndex == c.slots[w].stage + 1
       case HandlerRaises(left, detail) => me.phase.Started? && me.phase.job.KeepsIdentity(left)
       case CountAttempts => me.phase.HandlerRaised?
       case AddAttempt => me.phase.Counted?
       case RecordFailure => me.phase.Inserted? && me.unacked.Some?
       case AppendOutput => me.phase.HandlerReturned?
       case SendPublish =>
         me.phase.OutputLogged? && c.manifest.StageOutputQueue(c.Name(c.slots[w].stage), me.phase.job.partitionKey).Some?
       case WriteCompleted => me.phase.Sent? && me.unacked.Some?
       case SendAck => me.phase.Recorded?
       case BrokerHandles => me.frames != [] && me.unacked.Some?
       case Crash => me != IDLE_WORKER
  }

  function WorkerDoes(c: Config, s: World, w: nat, a: WorkerAction): (s': World)
    requires WorkerCan(c, s, w, a)
    ensures |s'.workers| == |s.workers|
  {
    var me := s.workers[w];
    var k := c.slots[w].stage;
    match a
    case Deliver(i) =>
      s.(ready := Without(s.ready, i)).SetWorker(w, Worker(Some(s.ready[i]), [], Received(s.ready[i].job)))
    case StopNack =>
      s.SetWorker(w, me.(frames := me.frames + [Nack], phase := Idle))
    case CheckHold =>
      var job := me.phase.job.Resolve();
      var hold := ActiveHold(s.db.holds, job.runId, job.targetTags, s.now);
      s.SetWorker(w, me.(phase := if hold.Some? then HoldFound(job, hold.value) else Clear(job)))
    case WriteHeld =>
      s.(db := HoldJob(s.db, me.phase.job, c.Name(k), me.unacked.value.queue, me.phase.hold)).SetWorker(w, me.(phase := Recorded))
    case WriteRunning =>
      s.(db := MarkRunning(s.db, me.phase.job, c.Name(k), me.unacked.value.queue)).SetWorker(w, me.(phase := MarkedRunning(me.phase.job)))
    case AppendStarted =>
      s.(db := Append(s.db, StartedEvent(me.phase.job, c.Name(k)))).SetWorker(w, me.(phase := Started(me.phase.job)))
    case HandlerReturns(updated) =>
      s.SetWorker(w, me.(phase := HandlerReturned(updated)))
    case HandlerRaises(left, detail) =>
      s.SetWorker(w, me.(phase := HandlerRaised(left, detail)))
    case CountAttempts =>
      s.SetWorker(w, me.(phase := Counted(me.phase.job, me.phase.detail, LedgerSize(s.db.attempts, KeyOf(me.phase.job, c.Name(k))))))
    case AddAttempt =>
      var number := me.phase.count + 1;
      s.(db := InsertAttempt(s.db, me.phase.job, c.Name(k), number, c.maxAttempts, me.phase.detail))
       .SetWorker(w, me.(phase := Inserted(me.phase.job, me.phase.detail, number, ActionFor(number, c.maxAttempts))))
    case RecordFailure =>
      s.(db := WriteFailure(s.db, me.phase.job, c.Name(k), me.unacked.value.queue, me.phase.number, me.phase.action,
                            me.phase.detail, s.now + c.retryDelay))
       .SetWorker(w, me.(phase := Recorded))
    case AppendOutput =>
      s.(db := Append(s.db, OutputEvent(me.phase.job, c.Name(k)))).SetWorker(w, me.(phase := OutputLogged(me.phase.job)))
    case SendPublish =>
      var queue := c.manifest.StageOutputQueue(c.Name(k), me.phase.job.partitionKey).value;
      s.SetWorker(w, me.(frames := me.frames + [Publish(Message(queue, k + 1, me.phase.job))], phase := Sent(me.phase.job)))
    case WriteCompleted =>
      s.(db := MarkCompleted(s.db, me.phase.job, c.Name(k), me.unacked.value.queue)).SetWorker(w, me.(phase := Recorded))
    case SendAck =>
      s.SetWorker(w, me.(frames := me.frames + [Ack], phase := Idle))
    case BrokerHandles =>
      var rest := me.(frames := me.frames[1..]);
      (match me.frames[0]
       case Publish(m) => s.Accept(m).SetWorker(w, rest)
       case Ack => s.SetWorker(w, rest.(unacked := None))
       case Nack => s.(ready := s.ready + [me.unacked.value]).SetWorker(w, rest.(unacked := None)))
    case Crash =>
      s.(ready := s.ready + if me.unacked.Some? then [me.unacked.value] else []).SetWorker(w, IDLE_WORKER)
  }

  /** A tap consumes the final completed queues of the partitions it was started with. */
  predicate Watched(c: Config, tap: Tap, queue: string) {
    && c.manifest.stages != []
    && exists p :: p in tap.partitions && c.manifest.StageOutputQueue(c.Name(c.N() - 1), p) == Some(queue)
  }

  predicate TapCan(c: Config, s: World, t: nat, a: TapAction) {
    && t < |s.taps|
    && var me := s.taps[t];
       match a
       case StartTap(_) => me.phase.Off?
       case CheckStart => me.phase.Opening?
       case TapReceives(i) =>
         && me.phase.Collecting? && (me.held == [] || |me.held| < c.batchSize)
         && i < |s.ready| && Watched(c, me, s.ready[i].queue)
       case BeginFlush => me.phase.Collecting? && me.held != []
       case WriteTerminalRow => me.phase.WritingRows? && me.phase.next < |me.held|
       case AppendTerminalEvent => me.phase.AppendingEvents? && me.phase.next < |me.held|
       case AckHeld => me.phase.Acking? && me.phase.next < |me.held|
       case EndFlush => me.phase.Acking? && me.phase.next == |me.held|
       case TapCloses => !me.phase.Off?
  }

  function TapDoes(c: Config, s: World, t: nat, a: TapAction): (s': World)
    requires TapCan(c, s, t, a)
    ensures |s'.taps| == |s.taps|
  {
    var me := s.taps[t];
    match a
    case StartTap(partitions) =>
      s.SetTap(t, Tap(partitions, Opening, [], TerminalIds(s.db.events, c.Run()), false))
    case CheckStart =>
      s.SetTap(t, me.(phase := Collecting, done := |me.known| >= ExpectedCount(s.db.batches, c.Run())))
    case TapReceives(i) =>
      var m := s.ready[i];
      var taken := s.(ready := Without(s.ready, i));
      if m.job.runId != c.Run() then taken
      else if m.job.jobId in me.known then taken.(settled := s.settled + {m.job.jobId})
      else taken.SetTap(t, me.(held := me.held + [m]))
    case BeginFlush =>
      s.SetTap(t, me.(phase := WritingRows(0)))
    case WriteTerminalRow =>
      var m := me.held[me.phase.next];
      s.(db := MarkTerminal(s.db, m.job, TERMINAL_STAGE, m.queue))
       .SetTap(t, me.(phase := if me.phase.next + 1 == |me.held| then AppendingEvents(0) else WritingRows(me.phase.next + 1)))
    case AppendTerminalEvent =>
      s.(db := Append(s.db, TerminalOf(me.held[me.phase.next].job, TERMINAL_STAGE)))
       .SetTap(t, me.(phase := if me.phase.next + 1 == |me.held| then Acking(0) else AppendingEvents(me.phase.next + 1)))
    case AckHeld =>
      var id := me.held[me.phase.next].job.jobId;
      s.(settled := s.settled + {id}).SetTap(t, me.(phase := Acking(me.phase.next + 1), known := me.known + {id}))
    case EndFlush =>
      s.SetTap(t, Tap(me.partitions, Collecting, [], me.known, me.done || |me.known| >= ExpectedCount(s.db.batches, c.Run())))
    case TapCloses =>
      s.(ready := s.ready + me.Unacked()).SetTap(t, OFF_TAP.(done := me.done))
  }

  /** `_validate_seed_jobs` and the checks of `create_seed_batch`. */
  predicate Seedable(c: Config, s: World, jobs: seq<Job>) {
    && c.manifest.stages != []
    && (forall i :: 0 <= i < |jobs| ==> jobs[i].runId == c.Run() && jobs[i].pipelineId == c.manifest.pipelineId)
    && NoDuplicates(JobIds(jobs))
    && forall i :: 0 <= i < |jobs| ==> jobs[i].jobId !in ActiveIds(s.db.batches, c.Run())
  }

  function FirstStageItems(jobs: seq<Job>): seq<Item> {
    seq(|jobs|, i requires 0 <= i < |jobs| => Item(0, jobs[i].Resolve()))
  }

  predicate FeedCan(c: Config, s: World, f: nat, a: FeedAction) {
    && f < |s.feeders|
    && var me := s.feeders[f];
       match a
       case Seed(jobs) => me.Resting? && Seedable(c, s, jobs)
       case OpenReplay => me.Resting?
       case ReadRow(jobId, pos) => me.Reading? && pos < c.N() && c.Key(jobId, pos) in s.db.rows
       case CloseReplayRead => me.Reading?
       case DeclareNext => me.Feeding? && me.todo != [] && me.todo[0].job.partitionKey !in me.declared
       case MarkNext =>
         && me.Feeding? && me.todo != [] && me.todo[0].job.partitionKey in me.declared
         && c.manifest.StageInputQueue(c.Name(me.todo[0].pos), me.todo[0].job.partitionKey).Some?
       case PublishMarked(i) =>
         && me.Feeding? && me.todo == [] && i < |me.marked|
         && c.manifest.StageInputQueue(c.Name(me.marked[i].pos), me.marked[i].job.partitionKey).Some?
       case FinishFeed => me.Feeding? && me.todo == [] && me.marked == [] && (me.batch.Some? ==> me.batch.value < |s.db.batches|)
       case FailFeed => me.Feeding? && (me.batch.Some? ==> me.batch.value < |s.db.batches|)
       case FeederDies => !me.Resting?
  }

  function FeedDoes(c: Config, s: World, f: nat, a: FeedAction): (s': World)
    requires FeedCan(c, s, f, a)
    ensures |s'.feeders| == |s.feeders|
  {
    var me := s.feeders[f];
    match a
    case Seed(jobs) =>
      s.(db := AddBatch(s.db, c.Run(), JobIds(jobs)))
       .SetFeeder(f, Feeding(Some(|s.db.batches|), {}, FirstStageItems(jobs), []))
    case OpenReplay =>
      s.SetFeeder(f, Reading([]))
    case ReadRow(jobId, pos) =>
      s.SetFeeder(f, Reading(me.todo + [Item(pos, s.db.rows[c.Key(jobId, pos)].job.Resolve())]))
    case CloseReplayRead =>
      s.SetFeeder(f, Feeding(None, {}, me.todo, []))
    case DeclareNext =>
      var key := me.todo[0].job.partitionKey;
      s.(declared := s.declared + c.manifest.PartitionQueueSet(key)).SetFeeder(f, me.(declared := me.declared + {key}))
    case MarkNext =>
      var item := me.todo[0];
      var queue := c.manifest.StageInputQueue(c.Name(item.pos), item.job.partitionKey).value;
      s.(db := MarkPending(s.db, item.job, c.Name(item.pos), queue), marked := s.marked + {item.job.jobId})
       .SetFeeder(f, me.(todo := me.todo[1..], marked := me.marked + [item]))
    case PublishMarked(i) =>
      var item := me.marked[i];
      var queue := c.manifest.StageInputQueue(c.Name(item.pos), item.job.partitionKey).value;
      s.Accept(Message(queue, item.pos, item.job)).SetFeeder(f, me.(marked := Without(me.marked, i)))
    case FinishFeed =>
      s.(db := if me.batch.Some? then SetBatchStatus(s.db, me.batch.value, Published) else s.db).SetFeeder(f, Resting)
    case FailFeed =>
      s.(db := if me.batch.Some? then SetBatchStatus(s.db, me.batch.value, FailedBatch) else s.db).SetFeeder(f, Resting)
    case FeederDies =>
      s.SetFeeder(f, Resting)
  }

  function OperatorDoes(c: Config, s: World, a: OperatorAction): World {
    match a
    case Tick(later) => s.(now := s.now + later)
    case PlaceHold(selectors, until) => s.(db := SetHold(s.db, c.Run(), selectors, until))
    case LiftHold(i, selectors) => s.(db := ClearHold(s.db, i, c.Run(), selectors))
  }

  predicate Enabled(c: Config, s: World, step: Step) {
    match step
    case AtWorker(w, a) => WorkerCan(c, s, w, a)
    case AtTap(t, a) => TapCan(c, s, t, a)
    case AtFeeder(f, a) => FeedCan(c, s, f, a)
    case AtOperator(_) => true
  }

  function Apply(c: Config, s: World, step: Step): World
    requires Enabled(c, s, step)
  {
    match step
    case AtWorker(w, a) => WorkerDoes(c, s, w, a)
    case AtTap(t, a) => TapDoes(c, s, t, a)
    case AtFeeder(f, a) => FeedDoes(c, s, f, a)
    case AtOperator(a) => OperatorDoes(c, s, a)
  }

  /** `trace` is a run taking `steps`. */
  ghost predicate Execution(c: Config, trace: seq<World>, steps: seq<Step>) {
    && |trace| == |steps| + 1
    && forall i :: 0 <= i < |steps| ==> Enabled(c, trace[i], steps[i]) && trace[i + 1] == Apply(c, trace[i], steps[i])
  }

  // ---------------------------------------------------------------- what a step leaves alone

  lemma WorkerLeavesOthers(c: Config, s: World, w: nat, a: WorkerAction)
    requires WorkerCan(c, s, w, a)
    ensures var s' := WorkerDoes(c, s, w, a);
            && s'.taps == s.taps && s'.feeders == s.feeders
            && |s'.workers| == |s.workers| && s'.workers == s.workers[w := s'.workers[w]]
  {
    hide Upsert, ActiveHold, LedgerSize;
  }

  lemma WorkerLeavesRest(c: Config, s: World, w: nat, a: WorkerAction)
    requires WorkerCan(c, s, w, a)
    ensures var s' := WorkerDoes(c, s, w, a);
            && s'.now == s.now && s'.declared == s.declared && s'.marked == s.marked && s'.settled == s.settled
            && s'.db.batches == s.db.batches && s'.db.holds == s.db.holds
  {
    hide Upsert, ActiveHold, LedgerSize;
  }

  lemma WorkerFrame(c: Config, s: World, w: nat, a: WorkerAction)
    requires WorkerCan(c, s, w, a)
    ensures var s' := WorkerDoes(c, s, w, a);
            && s'.now == s.now && s'.declared == s.declared && s'.taps == s.taps && s'.feeders == s.feeders
            && s'.marked == s.marked && s'.settled == s.settled
            && s'.db.batches == s.db.batches && s'.db.holds == s.db.holds
            && |s'.workers| == |s.workers| && s'.workers == s.workers[w := s'.workers[w]]
  {
    hide WorkerDoes, WorkerCan;
    WorkerLeavesOthers(c, s, w, a);
    WorkerLeavesRest(c, s, w, a);
  }

  predicate WritesRow(a: WorkerAction) {
    a.WriteHeld? || a.WriteRunning? || a.RecordFailure? || a.WriteCompleted?
  }

  /** A row write stores the envelope at hand in its own row, under the queue it was delivered from. */
  lemma WorkerWritesRow(c: Config, s: World, w: nat, a: WorkerAction)
    requires WorkerCan(c, s, w, a) && WritesRow(a)
    ensures var me := s.workers[w];
            var job := me.phase.job;
            var key := c.Key(job.jobId, c.slots[w].stage);
            var after := WorkerDoes(c, s, w, a).db.rows;
            && me.unacked.Some? && !me.phase.Idle? && !me.phase.Recorded?
            && (job.runId == c.Run() ==>
                  && key in after && after == s.db.rows[key := after[key]]
                  && after[key].job == job && after[key].partitionKey == job.partitionKey && after[key].targetTags == job.targetTags
                  && after[key].queueName == me.unacked.value.queue
                  && (a.WriteHeld? ==> after[key].status == Held) && (a.WriteRunning? ==> after[key].status == Running)
                  && (a.WriteCompleted? ==> after[key].status == Completed)
                  && (a.RecordFailure? ==> after[key].status in {RetryWaiting, DeadLettered}))
  {
  }

  lemma WorkerLeavesRows(c: Config, s: World, w: nat, a: WorkerAction)
    requires WorkerCan(c, s, w, a) && !WritesRow(a)
    ensures WorkerDoes(c, s, w, a).db.rows == s.db.rows
  {
    hide Upsert, ActiveHold, LedgerSize;
  }

  lemma TapFrame(c: Config, s: World, t: nat, a: TapAction)
    requires TapCan(c, s, t, a)
    ensures var s' := TapDoes(c, s, t, a);
            && s'.now == s.now && s'.declared == s.declared && s'.workers == s.workers && s'.feeders == s.feeders
            && s'.marked == s.marked && s'.reach == s.reach
            && s'.db.batches == s.db.batches && s'.db.holds == s.db.holds && s'.db.attempts == s.db.attempts
            && |s'.taps| == |s.taps| && s'.taps == s.taps[t := s'.taps[t]]
  {
  }

  lemma FeederFrame(c: Config, s: World, f: nat, a: FeedAction)
    requires FeedCan(c, s, f, a)
    ensures var s' := FeedDoes(c, s, f, a);
            && s'.now == s.now && s.declared <= s'.declared && s'.workers == s.workers && s'.taps == s.taps
            && s.marked <= s'.marked && s'.settled == s.settled
            && s'.db.events == s.db.events && s'.db.holds == s.db.holds && s'.db.attempts == s.db.attempts
            && |s'.feeders| == |s.feeders| && s'.feeders == s.feeders[f := s'.feeders[f]]
  {
  }

  lemma OperatorFrame(c: Config, s: World, a: OperatorAction)
    ensures var s' := OperatorDoes(c, s, a);
            && s' == s.(now := s'.now, db := s.db.(holds := s'.db.holds))
  {
  }
}
