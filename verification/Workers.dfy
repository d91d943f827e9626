/** A stage worker's message callback (pipeline/workers.py) and the protocol steps it takes. */
module Workers {
  import opened Common
  import opened Targeting
  import opened Manifest
  import opened Jobs
  import opened Documents
  import opened Store
  import opened StageExecutions
  import opened Protocol

  /** A method sent on a channel, with what the store held when it was sent. */
  datatype Sending = PublishJob(queue: string, job: Job, stored: Db) | AckDelivery(stored: Db) | NackDelivery(stored: Db)

  class Channel {
    const store: RunStore
    ghost var sent: seq<Sending>

    constructor (store: RunStore)
      ensures this.store == store && sent == []
    {
      this.store := store;
      sent := [];
    }

    method BasicPublish(queue: string, job: Job)
      modifies this
      ensures sent == old(sent) + [PublishJob(queue, job, store.Contents())]
    {
      sent := sent + [PublishJob(queue, job, store.Contents())];
    }

    method BasicAck()
      modifies this
      ensures sent == old(sent) + [AckDelivery(store.Contents())]
    {
      sent := sent + [AckDelivery(store.Contents())];
    }

    method BasicNack()
      modifies this
      ensures sent == old(sent) + [NackDelivery(store.Contents())]
    {
      sent := sent + [NackDelivery(store.Contents())];
    }
  }

  datatype Called = Called(db: Db, sent: seq<Sending>)

  type Router = Job -> Option<string>

  /** The effect of one callback that nothing interrupts: store contents, and channel methods in order. */
  function CallEffect(stage: StageSettings, route: Router, handler: Handler, stopping: bool, db: Db, now: int, job: Job, queue: string): Called {
    if stopping then Called(db, [NackDelivery(db)])
    else
      var out := RunEffect(stage, db, now, job, queue, handler);
      match out.result.action
      case ActRedeliver => Called(out.db, [NackDelivery(out.db)])
      case ActHeld => Called(out.db, [AckDelivery(out.db)])
      case ActFailedRecorded => Called(out.db, [AckDelivery(out.db)])
      case ActCompleted =>
        var recorded := if stage.durable then MarkCompleted(out.db, out.result.job, stage.name, queue) else out.db;
        var to := route(out.result.job);
        Called(recorded, (if to.Some? then [PublishJob(to.value, out.result.job, out.db)] else []) + [AckDelivery(recorded)])
  }

  class WorkerPool {
    const execution: StageExecution
    const handler: Handler
    const outputQueue: Option<string>
    const outputQueueForJob: Option<Router>
    var stopped: bool

    constructor (execution: StageExecution, handler: Handler, outputQueue: Option<string>, outputQueueForJob: Option<Router>)
      ensures this.execution == execution && this.handler == handler && this.outputQueue == outputQueue
      ensures this.outputQueueForJob == outputQueueForJob && !stopped
    {
      this.execution, this.handler, this.outputQueue, this.outputQueueForJob := execution, handler, outputQueue, outputQueueForJob;
      stopped := false;
    }

    method Stop()
      modifies this
      ensures stopped
    {
      stopped := true;
    }

    /** Run, then publish, then the completed row, then the acknowledgement, each seeing what the one before left. */
    method OnMessage(channel: Channel, job: Job, queue: string)
      requires channel.store == execution.store
      modifies channel, execution.store
      ensures execution.store.clock == old(execution.store.clock)
      ensures var route := (j: Job) => if outputQueueForJob.Some? then outputQueueForJob.value(j) else outputQueue;
              var call := CallEffect(execution.stage, route, handler, stopped,
                                     old(execution.store.Contents()), execution.store.clock, job, queue);
              execution.store.Contents() == call.db && channel.sent == old(channel.sent) + call.sent
      ensures forall i :: |old(channel.sent)| <= i < |channel.sent| && channel.sent[i].PublishJob? ==>
                Some(channel.sent[i].queue)
                == if outputQueueForJob.Some? then outputQueueForJob.value(channel.sent[i].job) else outputQueue
    {
      if stopped {
        channel.BasicNack();
        return;
      }
      var result := execution.Run(job, queue, handler);
      if result.action == ActRedeliver {
        channel.BasicNack();
        return;
      }
      if result.ShouldForward() {
        var to := if outputQueueForJob.Some? then outputQueueForJob.value(result.job) else outputQueue;
        if to.Some? {
          channel.BasicPublish(to.value, result.job);
        }
        execution.RecordCompleted(result.job, queue);
      }
      if result.ShouldAck() {
        channel.BasicAck();
      }
    }
  }

  // ---------------------------------------------------------------- what precedes what

  /** What the store held when the last method of a call was sent. */
  function SeenLast(call: Called): Db
    requires call.sent != []
  {
    call.sent[|call.sent| - 1].stored
  }

  /**
   * A publish is sent once, with the output logged and the row still RUNNING; the acknowledgement after it with the
   * row COMPLETED and the updated envelope in it.
   */
  lemma PublishThenCompletedThenAck(stage: StageSettings, route: Router, handler: Handler, db: Db, now: int, job: Job, queue: string)
    requires stage.durable && HoldFor(stage, db, now, job.Resolve()).None?
    requires handler(job.Resolve()).Returned? && job.Resolve().KeepsIdentity(handler(job.Resolve()).job)
    ensures var updated := handler(job.Resolve()).job;
            var call := CallEffect(stage, route, handler, false, db, now, job, queue);
            var key := KeyOf(job, stage.name);
            && 1 <= |call.sent| <= 2 && (|call.sent| == 2 <==> route(updated).Some?)
            && (|call.sent| == 2 ==>
                  && call.sent[0].PublishJob? && call.sent[0].queue == route(updated).value && call.sent[0].job == updated
                  && var seen := call.sent[0].stored;
                     && Logged(seen.events, job.runId, job.jobId, stage.name, StageOutput)
                     && key in seen.rows && seen.rows[key].status == Running)
            && call.sent[|call.sent| - 1].AckDelivery?
            && key in SeenLast(call).rows && SeenLast(call).rows[key].status == Completed && SeenLast(call).rows[key].job == updated
            && call.db == SeenLast(call)
  {
    hide ActiveHold;
    var resolved := job.Resolve();
    var out := RunEffect(stage, db, now, job, queue, handler);
    AcknowledgedMeansRecorded(stage, db, now, job, queue, handler);
    assert out.db.events == db.events + [StartedEvent(resolved, stage.name), OutputEvent(out.result.job, stage.name)];
    assert out.db.events[|db.events| + 1] == OutputEvent(out.result.job, stage.name);
  }

  /**
   * A call that is not forwarded publishes nothing and sends one method: an acknowledgement, with the row parked, or a
   * return to the queue, exactly when the worker is stopping or a plain sink could not record the failure.
   */
  lemma OtherCallsPublishNothing(stage: StageSettings, route: Router, handler: Handler, stopping: bool, db: Db, now: int, job: Job, queue: string)
    requires match handler(job.Resolve())
             case Returned(after) => job.Resolve().KeepsIdentity(after)
             case Raised(after, _) => job.Resolve().KeepsIdentity(after)
    requires stopping || HoldFor(stage, db, now, job.Resolve()).Some? || handler(job.Resolve()).Raised?
    ensures var call := CallEffect(stage, route, handler, stopping, db, now, job, queue);
            var key := KeyOf(job, stage.name);
            && |call.sent| == 1 && !call.sent[0].PublishJob? && call.db == SeenLast(call)
            && (call.sent[0].NackDelivery? <==> stopping || !stage.durable)
            && (call.sent[0].AckDelivery? ==> key in SeenLast(call).rows && Parks(SeenLast(call).rows[key].status))
            && (stopping ==> call.db == db)
  {
    hide ActiveHold, LedgerSize;
    if !stopping {
      AcknowledgedMeansRecorded(stage, db, now, job, queue, handler);
    }
  }

  // ---------------------------------------------------------------- a callback is a run of protocol steps

  /** From `s`, connection `w` can take these actions in order, ending in `s'`. */
  ghost predicate Performs(c: Config, s: World, w: nat, actions: seq<WorkerAction>, s': World)
    decreases |actions|
  {
    if actions == [] then s' == s
    else WorkerCan(c, s, w, actions[0]) && Performs(c, WorkerDoes(c, s, w, actions[0]), w, actions[1..], s')
  }

  lemma Then(c: Config, s: World, w: nat, a: WorkerAction, s1: World, rest: seq<WorkerAction>, s': World)
    requires WorkerCan(c, s, w, a) && WorkerDoes(c, s, w, a) == s1 && Performs(c, s1, w, rest, s')
    ensures Performs(c, s, w, [a] + rest, s')
  {
    hide WorkerCan, WorkerDoes;
    assert ([a] + rest)[1..] == rest;
  }

  /** The actions of one uninterrupted callback, in program order. */
  function CallActions(stage: StageSettings, handler: Handler, stopping: bool, db: Db, now: int, job: Job): seq<WorkerAction> {
    if stopping then [StopNack] + ([BrokerHandles] + [])
    else
      var resolved := job.Resolve();
      if HoldFor(stage, db, now, resolved).Some? then [CheckHold] + HeldActions()
      else
        [CheckHold] + HandledActions(handler(resolved))
  }

  function HandledActions(result: HandlerResult): seq<WorkerAction> {
    [WriteRunning] + ([AppendStarted] + AfterHandler(result))
  }

  function AfterHandler(result: HandlerResult): seq<WorkerAction> {
    match result
    case Raised(left, detail) => [HandlerRaises(left, detail)] + FailedActions()
    case Returned(updated) => [HandlerReturns(updated)] + ForwardActions()
  }

  function HeldActions(): seq<WorkerAction> {
    [WriteHeld] + AckActions()
  }

  function FailedActions(): seq<WorkerAction> {
    [CountAttempts] + ([AddAttempt] + ([RecordFailure] + AckActions()))
  }

  function ForwardActions(): seq<WorkerAction> {
    [AppendOutput] + ([SendPublish] + ([WriteCompleted] + ([SendAck] + ([BrokerHandles] + ([BrokerHandles] + [])))))
  }

  function AckActions(): seq<WorkerAction> {
    [SendAck] + ([BrokerHandles] + [])
  }

  /** A world that differs from `s` in the store and in one connection. */
  function Put(s: World, db: Db, w: nat, worker: Worker): World
    requires w < |s.workers|
  {
    s.(db := db).SetWorker(w, worker)
  }

  lemma NoFrames(frame: Frame)
    ensures [] + [frame] == [frame] && [frame][1..] == []
  {
  }

  lemma AcksDelivery(c: Config, s: World, db: Db, w: nat, m: Message)
    requires w < |s.workers| && w < |c.slots| && c.slots[w].stage < c.N()
    ensures Performs(c, Put(s, db, w, Worker(Some(m), [], Recorded)), w, AckActions(), Put(s, db, w, IDLE_WORKER))
  {
    var s0 := Put(s, db, w, Worker(Some(m), [], Recorded));
    var s1 := Put(s, db, w, Worker(Some(m), [Ack], Idle));
    var s2 := Put(s, db, w, IDLE_WORKER);
    NoFrames(Ack);
    assert WorkerDoes(c, s0, w, SendAck) == s1;
    assert WorkerDoes(c, s1, w, BrokerHandles) == s2;
    Then(c, s1, w, BrokerHandles, s2, [], s2);
    Then(c, s0, w, SendAck, s1, [BrokerHandles] + [], s2);
  }

  lemma HoldsJob(c: Config, s: World, db: Db, w: nat, m: Message, job: Job, hold: Hold)
    requires w < |s.workers| && w < |c.slots| && c.slots[w].stage < c.N()
    ensures var after := Documents.HoldJob(db, job, c.Name(c.slots[w].stage), m.queue, hold);
            Performs(c, Put(s, db, w, Worker(Some(m), [], HoldFound(job, hold))), w, HeldActions(), Put(s, after, w, IDLE_WORKER))
  {
    hide Upsert, Performs;
    var after := Documents.HoldJob(db, job, c.Name(c.slots[w].stage), m.queue, hold);
    var s0 := Put(s, db, w, Worker(Some(m), [], HoldFound(job, hold)));
    var s1 := Put(s, after, w, Worker(Some(m), [], Recorded));
    assert WorkerDoes(c, s0, w, WriteHeld) == s1;
    AcksDelivery(c, s, after, w, m);
    Then(c, s0, w, WriteHeld, s1, AckActions(), Put(s, after, w, IDLE_WORKER));
  }

  lemma RecordsFailure(c: Config, s: World, db: Db, w: nat, m: Message, job: Job, detail: string)
    requires w < |s.workers| && w < |c.slots| && c.slots[w].stage < c.N()
    ensures var after := RecordFailureIn(db, job, c.Name(c.slots[w].stage), m.queue, detail, c.maxAttempts, s.now + c.retryDelay);
            Performs(c, Put(s, db, w, Worker(Some(m), [], HandlerRaised(job, detail))), w, FailedActions(), Put(s, after, w, IDLE_WORKER))
  {
    hide Performs, Upsert, LedgerSize;
    var name := c.Name(c.slots[w].stage);
    var count := LedgerSize(db.attempts, KeyOf(job, name));
    var action := ActionFor(count + 1, c.maxAttempts);
    var mid := InsertAttempt(db, job, name, count + 1, c.maxAttempts, detail);
    var after := WriteFailure(mid, job, name, m.queue, count + 1, action, detail, s.now + c.retryDelay);
    var s0 := Put(s, db, w, Worker(Some(m), [], HandlerRaised(job, detail)));
    var s1 := Put(s, db, w, Worker(Some(m), [], Counted(job, detail, count)));
    var s2 := Put(s, mid, w, Worker(Some(m), [], Inserted(job, detail, count + 1, action)));
    var s3 := Put(s, after, w, Worker(Some(m), [], Recorded));
    var end := Put(s, after, w, IDLE_WORKER);
    assert WorkerDoes(c, s0, w, CountAttempts) == s1;
    assert WorkerDoes(c, s1, w, AddAttempt) == s2;
    assert WorkerDoes(c, s2, w, RecordFailure) == s3;
    AcksDelivery(c, s, after, w, m);
    Then(c, s2, w, RecordFailure, s3, AckActions(), end);
    Then(c, s1, w, AddAttempt, s2, [RecordFailure] + AckActions(), end);
    Then(c, s0, w, CountAttempts, s1, [AddAttempt] + ([RecordFailure] + AckActions()), end);
  }

  lemma BrokerPublishesAndAcks(c: Config, s: World, db: Db, w: nat, m: Message, out: Message)
    requires w < |s.workers| && w < |c.slots| && c.slots[w].stage < c.N()
    ensures Performs(c, Put(s, db, w, Worker(Some(m), [Publish(out)], Recorded)), w, [SendAck] + ([BrokerHandles] + ([BrokerHandles] + [])),
                     Put(s.Accept(out), db, w, IDLE_WORKER))
  {
    hide Performs;
    var s0 := Put(s, db, w, Worker(Some(m), [Publish(out)], Recorded));
    var s1 := Put(s, db, w, Worker(Some(m), [Publish(out), Ack], Idle));
    var s2 := Put(s.Accept(out), db, w, Worker(Some(m), [Ack], Idle));
    var s3 := Put(s.Accept(out), db, w, IDLE_WORKER);
    assert [Publish(out)] + [Ack] == [Publish(out), Ack];
    assert WorkerDoes(c, s0, w, SendAck) == s1;
    assert [Publish(out), Ack][1..] == [Ack] && [Ack][1..] == [];
    assert WorkerDoes(c, s1, w, BrokerHandles) == s2;
    assert WorkerDoes(c, s2, w, BrokerHandles) == s3;
    NoMore(c, s3, w);
    Then(c, s2, w, BrokerHandles, s3, [], s3);
    Then(c, s1, w, BrokerHandles, s2, [BrokerHandles] + [], s3);
    Then(c, s0, w, SendAck, s1, [BrokerHandles] + ([BrokerHandles] + []), s3);
  }

  lemma NoMore(c: Config, s: World, w: nat)
    ensures Performs(c, s, w, [], s)
  {
  }

  lemma LogsOutput(c: Config, s: World, db: Db, w: nat, m: Message, job: Job)
    requires w < |s.workers| && w < |c.slots| && c.slots[w].stage < c.N()
    ensures var s0 := Put(s, db, w, Worker(Some(m), [], HandlerReturned(job)));
            && WorkerCan(c, s0, w, AppendOutput)
            && WorkerDoes(c, s0, w, AppendOutput)
               == Put(s, Documents.Append(db, OutputEvent(job, c.Name(c.slots[w].stage))), w, Worker(Some(m), [], OutputLogged(job)))
  {
  }

  lemma SendsOn(c: Config, s: World, db: Db, w: nat, m: Message, job: Job, out: Message)
    requires w < |s.workers| && w < |c.slots| && c.slots[w].stage < c.N()
    requires c.manifest.StageOutputQueue(c.Name(c.slots[w].stage), job.partitionKey) == Some(out.queue)
    requires out.pos == c.slots[w].stage + 1 && out.job == job
    ensures var s0 := Put(s, db, w, Worker(Some(m), [], OutputLogged(job)));
            && WorkerCan(c, s0, w, SendPublish)
            && WorkerDoes(c, s0, w, SendPublish) == Put(s, db, w, Worker(Some(m), [Publish(out)], Sent(job)))
  {
    hide c.manifest.StageOutputQueue;
    NoFrames(Publish(out));
  }

  lemma Completes(c: Config, s: World, db: Db, w: nat, m: Message, job: Job, out: Message)
    requires w < |s.workers| && w < |c.slots| && c.slots[w].stage < c.N()
    ensures var s0 := Put(s, db, w, Worker(Some(m), [Publish(out)], Sent(job)));
            && WorkerCan(c, s0, w, WriteCompleted)
            && WorkerDoes(c, s0, w, WriteCompleted)
               == Put(s, MarkCompleted(db, job, c.Name(c.slots[w].stage), m.queue), w, Worker(Some(m), [Publish(out)], Recorded))
  {
    hide MarkCompleted;
  }

  lemma ForwardsJob(c: Config, s: World, db: Db, w: nat, m: Message, job: Job)
    requires c.Valid() && w < |s.workers| && w < |c.slots|
    ensures var name := c.Name(c.slots[w].stage);
            var logged := Documents.Append(db, OutputEvent(job, name));
            var after := MarkCompleted(logged, job, name, m.queue);
            && c.manifest.StageOutputQueue(name, job.partitionKey).Some?
            && var out := Message(c.manifest.StageOutputQueue(name, job.partitionKey).value, c.slots[w].stage + 1, job);
               Performs(c, Put(s, db, w, Worker(Some(m), [], HandlerReturned(job))), w, ForwardActions(),
                        Put(s.Accept(out), after, w, IDLE_WORKER))
  {
    hide Performs, MarkCompleted, c.manifest.StageOutputQueue, WorkerDoes, WorkerCan;
    var k := c.slots[w].stage;
    var name := c.Name(k);
    c.manifest.RoutesChain(k, job.partitionKey);
    var out := Message(c.manifest.StageOutputQueue(name, job.partitionKey).value, k + 1, job);
    var logged := Documents.Append(db, OutputEvent(job, name));
    var after := MarkCompleted(logged, job, name, m.queue);
    var s0 := Put(s, db, w, Worker(Some(m), [], HandlerReturned(job)));
    var s1 := Put(s, logged, w, Worker(Some(m), [], OutputLogged(job)));
    var s2 := Put(s, logged, w, Worker(Some(m), [Publish(out)], Sent(job)));
    var s3 := Put(s, after, w, Worker(Some(m), [Publish(out)], Recorded));
    var end := Put(s.Accept(out), after, w, IDLE_WORKER);
    LogsOutput(c, s, db, w, m, job);
    SendsOn(c, s, logged, w, m, job, out);
    Completes(c, s, logged, w, m, job, out);
    BrokerPublishesAndAcks(c, s, after, w, m, out);
    var acks := [SendAck] + ([BrokerHandles] + ([BrokerHandles] + []));
    Then(c, s2, w, WriteCompleted, s3, acks, end);
    Then(c, s1, w, SendPublish, s2, [WriteCompleted] + acks, end);
    Then(c, s0, w, AppendOutput, s1, [SendPublish] + ([WriteCompleted] + acks), end);
  }

  /** Where the protocol stands after a callback: acknowledged or returned to its queue, with what was published accepted. */
  function Settle(s: World, w: nat, m: Message, call: Called): World
    requires w < |s.workers| && call.sent != []
  {
    var published := if call.sent[0].PublishJob? then s.Accept(Message(call.sent[0].queue, m.pos + 1, call.sent[0].job)) else s;
    var returned := if call.sent[|call.sent| - 1].NackDelivery? then published.(ready := published.ready + [m]) else published;
    Put(returned, call.db, w, IDLE_WORKER)
  }

  /** What the protocol asks of a handler: identity kept, and the next step index stamped on a returned envelope. */
  predicate HandlerFits(handler: Handler, job: Job, k: nat) {
    match handler(job)
    case Returned(after) => job.KeepsIdentity(after) && after.stepIndex == k + 1
    case Raised(after, _) => job.KeepsIdentity(after)
  }

  /** The wrapper stamps the index, so a handler that keeps the identity fits. */
  lemma MadeHandlersFit(handler: Handler, job: Job, k: nat)
    ensures HandlerFits(MakeHandler(k, handler), job, k)
            <==> (match handler(job) case Returned(after) => job.KeepsIdentity(after) case Raised(after, _) => job.KeepsIdentity(after))
  {
    assert MakeHandler(k, handler)(job).Returned? == handler(job).Returned?;
  }

  ghost predicate SameStage(c: Config, w: nat, stage: StageSettings) {
    && w < |c.slots| && stage.durable && stage.name == c.Name(c.slots[w].stage)
    && stage.maxAttempts == c.maxAttempts && stage.retryDelay == c.retryDelay
  }

  function RouterOf(c: Config, name: string): Router {
    (job: Job) => c.manifest.StageOutputQueue(name, job.partitionKey)
  }

  lemma StartsStage(c: Config, s: World, w: nat, m: Message, job: Job)
    requires w < |s.workers| && w < |c.slots| && c.slots[w].stage < c.N() && s.workers[w] == Worker(Some(m), [], Clear(job))
    ensures var name := c.Name(c.slots[w].stage);
            var running := MarkRunning(s.db, job, name, m.queue);
            var s1 := Put(s, running, w, Worker(Some(m), [], MarkedRunning(job)));
            var s2 := Put(s, Documents.Append(running, StartedEvent(job, name)), w, Worker(Some(m), [], Started(job)));
            && WorkerCan(c, s, w, WriteRunning) && WorkerDoes(c, s, w, WriteRunning) == s1
            && WorkerCan(c, s1, w, AppendStarted) && WorkerDoes(c, s1, w, AppendStarted) == s2
  {
    hide Upsert;
  }

  lemma MovesToResult(c: Config, s: World, db: Db, w: nat, m: Message, job: Job, result: HandlerResult)
    requires w < |s.workers| && w < |c.slots| && c.slots[w].stage < c.N() && job.KeepsIdentity(result.job)
    requires result.Returned? ==> result.job.stepIndex == c.slots[w].stage + 1
    ensures var s0 := Put(s, db, w, Worker(Some(m), [], Started(job)));
            match result
            case Raised(left, detail) =>
              WorkerCan(c, s0, w, HandlerRaises(left, detail))
              && WorkerDoes(c, s0, w, HandlerRaises(left, detail)) == Put(s, db, w, Worker(Some(m), [], HandlerRaised(left, detail)))
            case Returned(updated) =>
              WorkerCan(c, s0, w, HandlerReturns(updated))
              && WorkerDoes(c, s0, w, HandlerReturns(updated)) == Put(s, db, w, Worker(Some(m), [], HandlerReturned(updated)))
  {
  }

  lemma HandlerEnds(c: Config, s: World, w: nat, m: Message, stage: StageSettings, handler: Handler, started: Db)
    requires c.Valid() && w < |s.workers| && SameStage(c, w, stage) && m.pos == c.slots[w].stage < c.N()
    requires HandlerFits(handler, m.job.Resolve(), m.pos) && HoldFor(stage, s.db, s.now, m.job.Resolve()).None?
    requires started == Documents.Append(MarkRunning(s.db, m.job.Resolve(), stage.name, m.queue), StartedEvent(m.job.Resolve(), stage.name))
    ensures var job := m.job.Resolve();
            var call := CallEffect(stage, RouterOf(c, stage.name), handler, false, s.db, s.now, m.job, m.queue);
            && call.sent != []
            && Performs(c, Put(s, started, w, Worker(Some(m), [], Started(job))), w, AfterHandler(handler(job)), Settle(s, w, m, call))
  {
    hide Performs, Upsert, LedgerSize, ActiveHold, RecordFailureIn, FailedActions, ForwardActions, c.Valid, DerivePartitionKey, WorkerDoes, WorkerCan;
    var job := m.job.Resolve();
    var end := Settle(s, w, m, CallEffect(stage, RouterOf(c, stage.name), handler, false, s.db, s.now, m.job, m.queue));
    var s3 := Put(s, started, w, Worker(Some(m), [], Started(job)));
    MovesToResult(c, s, started, w, m, job, handler(job));
    if handler(job).Raised? {
      var left, detail := handler(job).job, handler(job).detail;
      var s4 := Put(s, started, w, Worker(Some(m), [], HandlerRaised(left, detail)));
      RecordsFailure(c, s, started, w, m, left, detail);
      Then(c, s3, w, HandlerRaises(left, detail), s4, FailedActions(), end);
    } else {
      var updated := handler(job).job;
      var s4 := Put(s, started, w, Worker(Some(m), [], HandlerReturned(updated)));
      ForwardsJob(c, s, started, w, m, updated);
      Then(c, s3, w, HandlerReturns(updated), s4, ForwardActions(), end);
    }
  }

  lemma RunsHandler(c: Config, s: World, w: nat, m: Message, stage: StageSettings, handler: Handler)
    requires c.Valid() && w < |s.workers| && SameStage(c, w, stage) && m.pos == c.slots[w].stage
    requires s.workers[w] == Worker(Some(m), [], Received(m.job))
    requires HandlerFits(handler, m.job.Resolve(), m.pos)
    requires HoldFor(stage, s.db, s.now, m.job.Resolve()).None? && m.pos < c.N()
    ensures var call := CallEffect(stage, RouterOf(c, stage.name), handler, false, s.db, s.now, m.job, m.queue);
            && call.sent != []
            && Performs(c, Put(s, s.db, w, Worker(Some(m), [], Clear(m.job.Resolve()))), w, HandledActions(handler(m.job.Resolve())),
                        Settle(s, w, m, call))
  {
    hide Performs, Upsert, LedgerSize, ActiveHold, AfterHandler, c.Valid, DerivePartitionKey, CallEffect, HandlerFits;
    var name := c.Name(m.pos);
    var job := m.job.Resolve();
    var running := MarkRunning(s.db, job, name, m.queue);
    var started := Documents.Append(running, StartedEvent(job, name));
    HandlerEnds(c, s, w, m, stage, handler, started);
    var end := Settle(s, w, m, CallEffect(stage, RouterOf(c, stage.name), handler, false, s.db, s.now, m.job, m.queue));
    var s1 := Put(s, s.db, w, Worker(Some(m), [], Clear(job)));
    var s2 := Put(s, running, w, Worker(Some(m), [], MarkedRunning(job)));
    var s3 := Put(s, started, w, Worker(Some(m), [], Started(job)));
    StartsStage(c, s1, w, m, job);
    assert Put(s1, running, w, Worker(Some(m), [], MarkedRunning(job))) == s2;
    assert Put(s1, started, w, Worker(Some(m), [], Started(job))) == s3;
    var rest := AfterHandler(handler(job));
    Then(c, s2, w, AppendStarted, s3, rest, end);
    Then(c, s1, w, WriteRunning, s2, [AppendStarted] + rest, end);
  }

  lemma StopsAtOnce(c: Config, s: World, w: nat, m: Message, db: Db)
    requires w < |s.workers| && w < |c.slots| && c.slots[w].stage < c.N() && s.workers[w] == Worker(Some(m), [], Received(m.job))
    ensures Performs(c, s, w, [StopNack] + ([BrokerHandles] + []), Settle(s, w, m, Called(s.db, [NackDelivery(db)])))
  {
    hide Performs;
    NoFrames(Nack);
    var s1 := Put(s, s.db, w, Worker(Some(m), [Nack], Idle));
    var end := Settle(s, w, m, Called(s.db, [NackDelivery(db)]));
    assert WorkerDoes(c, s, w, StopNack) == s1;
    assert WorkerDoes(c, s1, w, BrokerHandles) == end;
    NoMore(c, end, w);
    Then(c, s1, w, BrokerHandles, end, [], end);
    Then(c, s, w, StopNack, s1, [BrokerHandles] + [], end);
  }

  lemma ChecksHold(c: Config, s: World, w: nat, m: Message, stage: StageSettings)
    requires w < |s.workers| && SameStage(c, w, stage) && c.slots[w].stage < c.N() && s.workers[w] == Worker(Some(m), [], Received(m.job))
    ensures var job := m.job.Resolve();
            var hold := HoldFor(stage, s.db, s.now, job);
            WorkerCan(c, s, w, CheckHold)
            && WorkerDoes(c, s, w, CheckHold)
               == Put(s, s.db, w, Worker(Some(m), [], if hold.Some? then HoldFound(job, hold.value) else Clear(job)))
  {
    hide ActiveHold, DerivePartitionKey;
  }

  lemma CallbackHolds(c: Config, s: World, w: nat, m: Message, stage: StageSettings, handler: Handler)
    requires w < |s.workers| && SameStage(c, w, stage) && m.pos == c.slots[w].stage < c.N()
    requires s.workers[w] == Worker(Some(m), [], Received(m.job)) && HoldFor(stage, s.db, s.now, m.job.Resolve()).Some?
    ensures var call := CallEffect(stage, RouterOf(c, stage.name), handler, false, s.db, s.now, m.job, m.queue);
            call.sent != [] && Performs(c, s, w, [CheckHold] + HeldActions(), Settle(s, w, m, call))
  {
    hide Performs, Upsert, ActiveHold, HeldActions, DerivePartitionKey, WorkerDoes;
    var job := m.job.Resolve();
    var hold := HoldFor(stage, s.db, s.now, job).value;
    var end := Settle(s, w, m, CallEffect(stage, RouterOf(c, stage.name), handler, false, s.db, s.now, m.job, m.queue));
    ChecksHold(c, s, w, m, stage);
    HoldsJob(c, s, s.db, w, m, job, hold);
    Then(c, s, w, CheckHold, Put(s, s.db, w, Worker(Some(m), [], HoldFound(job, hold))), HeldActions(), end);
  }

  lemma CallbackRuns(c: Config, s: World, w: nat, m: Message, stage: StageSettings, handler: Handler)
    requires c.Valid() && w < |s.workers| && SameStage(c, w, stage) && m.pos == c.slots[w].stage < c.N()
    requires s.workers[w] == Worker(Some(m), [], Received(m.job)) && HoldFor(stage, s.db, s.now, m.job.Resolve()).None?
    requires HandlerFits(handler, m.job.Resolve(), m.pos)
    ensures var call := CallEffect(stage, RouterOf(c, stage.name), handler, false, s.db, s.now, m.job, m.queue);
            call.sent != [] && Performs(c, s, w, [CheckHold] + HandledActions(handler(m.job.Resolve())), Settle(s, w, m, call))
  {
    hide Performs, Upsert, ActiveHold, HandledActions, DerivePartitionKey, WorkerDoes, c.Valid, RunEffect, HandlerFits;
    var job := m.job.Resolve();
    var end := Settle(s, w, m, CallEffect(stage, RouterOf(c, stage.name), handler, false, s.db, s.now, m.job, m.queue));
    ChecksHold(c, s, w, m, stage);
    RunsHandler(c, s, w, m, stage, handler);
    Then(c, s, w, CheckHold, Put(s, s.db, w, Worker(Some(m), [], Clear(job))), HandledActions(handler(job)), end);
  }

  /** One uninterrupted callback of a run's worker is exactly this run of protocol steps. */
  lemma CallbackIsProtocolSteps(c: Config, s: World, w: nat, m: Message, stage: StageSettings, handler: Handler, stopping: bool)
    requires c.Valid() && w < |s.workers| && SameStage(c, w, stage) && m.pos == c.slots[w].stage
    requires s.workers[w] == Worker(Some(m), [], Received(m.job))
    requires HandlerFits(handler, m.job.Resolve(), m.pos)
    ensures var call := CallEffect(stage, RouterOf(c, stage.name), handler, stopping, s.db, s.now, m.job, m.queue);
            && call.sent != []
            && Performs(c, s, w, CallActions(stage, handler, stopping, s.db, s.now, m.job), Settle(s, w, m, call))
  {
    hide Performs, Upsert, LedgerSize, ActiveHold, RecordFailureIn, HeldActions, HandledActions, DerivePartitionKey;
    if stopping {
      StopsAtOnce(c, s, w, m, s.db);
    } else if HoldFor(stage, s.db, s.now, m.job.Resolve()).Some? {
      CallbackHolds(c, s, w, m, stage, handler);
    } else {
      CallbackRuns(c, s, w, m, stage, handler);
    }
  }

  // ---------------------------------------------------------------- the pools of a run

  /** One pool as `_build_pools` makes it: the stage's own completed queue, and a resolver by partition. */
  method BuildPool(m: RunManifest, k: nat, execution: StageExecution, handler: Handler) returns (pool: WorkerPool)
    requires k < |m.stages|
    ensures pool.execution == execution && pool.handler == handler && !pool.stopped && fresh(pool)
    ensures pool.outputQueue == Some(m.stages[k].outputQueue)
    ensures pool.outputQueueForJob.Some?
    ensures forall job: Job :: pool.outputQueueForJob.value(job) == m.StageOutputQueue(m.stages[k].name, job.partitionKey)
  {
    var name := m.stages[k].name;
    pool := new WorkerPool(execution, handler, Some(m.stages[k].outputQueue),
                           Some((job: Job) => m.StageOutputQueue(name, job.partitionKey)));
  }

  lemma SameRoute(stage: StageSettings, route: Router, other: Router, handler: Handler, stopping: bool, db: Db, now: int, job: Job, queue: string)
    requires forall j: Job :: route(j) == other(j)
    ensures CallEffect(stage, route, handler, stopping, db, now, job, queue) == CallEffect(stage, other, handler, stopping, db, now, job, queue)
  {
    hide RunEffect, MarkCompleted;
  }

  /**
   * The call that `OnMessage` makes in a pool of a run is the protocol's run of steps, and what it publishes goes to the
   * queue of the next position for the job's partition.
   */
  lemma PoolCallbackIsProtocolSteps(c: Config, s: World, w: nat, m: Message, pool: WorkerPool, stopping: bool)
    requires c.Valid() && w < |s.workers| && SameStage(c, w, pool.execution.stage) && m.pos == c.slots[w].stage
    requires pool.outputQueueForJob.Some?
    requires forall job: Job :: pool.outputQueueForJob.value(job) == c.manifest.StageOutputQueue(c.Name(m.pos), job.partitionKey)
    requires s.workers[w] == Worker(Some(m), [], Received(m.job))
    requires HandlerFits(pool.handler, m.job.Resolve(), m.pos)
    ensures var route := (j: Job) => if pool.outputQueueForJob.Some? then pool.outputQueueForJob.value(j) else pool.outputQueue;
            var call := CallEffect(pool.execution.stage, route, pool.handler, stopping, s.db, s.now, m.job, m.queue);
            && call.sent != []
            && Performs(c, s, w, CallActions(pool.execution.stage, pool.handler, stopping, s.db, s.now, m.job), Settle(s, w, m, call))
            && forall i :: 0 <= i < |call.sent| && call.sent[i].PublishJob? ==>
                 call.sent[i].queue == c.manifest.QueueAt(m.pos + 1, call.sent[i].job.partitionKey)
  {
    hide Performs, CallActions, RunEffect, MarkCompleted, c.Valid, Settle, c.manifest.StageOutputQueue;
    var stage := pool.execution.stage;
    var route := (j: Job) => if pool.outputQueueForJob.Some? then pool.outputQueueForJob.value(j) else pool.outputQueue;
    SameRoute(stage, route, RouterOf(c, stage.name), pool.handler, stopping, s.db, s.now, m.job, m.queue);
    CallbackIsProtocolSteps(c, s, w, m, stage, pool.handler, stopping);
    SlotHasAStage(c, w);
    forall job: Job ensures c.manifest.StageOutputQueue(c.Name(m.pos), job.partitionKey) == Some(c.Queue(m.pos + 1, job.partitionKey)) {
      OutputQueueOf(c, m.pos, job.partitionKey);
    }
  }

  lemma SlotHasAStage(c: Config, w: nat)
    requires c.Valid() && w < |c.slots|
    ensures c.slots[w].stage < c.N()
  {
  }

  lemma OutputQueueOf(c: Config, k: nat, key: string)
    requires c.Valid() && k < c.N()
    ensures c.manifest.StageOutputQueue(c.Name(k), key) == Some(c.Queue(k + 1, key))
  {
    c.manifest.RoutesChain(k, key);
  }
}
