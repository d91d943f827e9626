/** The main results, about every state of every run from set-up on. */
module Runs {
  import opened Common
  import opened Targeting
  import opened Manifest
  import opened Jobs
  import opened Documents
  import opened Protocol
  import opened Routing
  import opened AppendOrder
  import opened RowShape
  import opened Ledger
  import opened Recordings
  import opened TerminalChain
  import opened Counting
  import opened Frontier
  import opened Refinement
  import opened Completion
  import opened Drain
  import opened Progress
  import opened Store

  /** What holds in every reachable state without any hypothesis on handlers, operators or failures. */
  ghost predicate Inv(c: Config, s: World)
    requires c.Valid()
  {
    && RoutingInv(c, s) && AppendInv(c, s) && ShapeInv(s.db.rows) && LedgerInv(c, s)
    && ChainInv(c, s) && ReachInv(c, s) && FrontierInv(c, s) && CountingInv(c, s)
  }

  lemma InitialLog(c: Config, s: World)
    requires c.Valid() && Initial(c, s)
    ensures AppendInv(c, s) && ShapeInv(s.db.rows) && LedgerInv(c, s) && ChainInv(c, s)
  {
    hide c.Valid;
    assert TerminalJobs(c, s) == {};
  }

  lemma InitialPlaces(c: Config, s: World)
    requires c.Valid() && Initial(c, s)
    ensures ReachInv(c, s) && FrontierInv(c, s) && CountingInv(c, s)
  {
    hide c.Valid;
  }

  lemma InitialClaims(c: Config, s: World)
    requires c.Valid() && Initial(c, s)
    ensures NoEscape(c, s)
    ensures |s.taps| == 1 ==> SoleInv(c, s)
    ensures forall rule :: RefineInv(c, rule, s)
  {
    hide c.Valid;
    assert TerminalJobs(c, s) == {};
  }

  lemma InitialInv(c: Config, s: World)
    requires c.Valid() && Initial(c, s)
    ensures Inv(c, s)
    ensures NoEscape(c, s)
    ensures |s.taps| == 1 ==> SoleInv(c, s)
    ensures forall rule :: RefineInv(c, rule, s)
  {
    hide c.Valid, Initial, RoutingInv, AppendInv, ShapeInv, LedgerInv, ChainInv, ReachInv, FrontierInv, CountingInv, RefineInv, NoEscape, SoleInv;
    InitialRouting(c, s);
    InitialLog(c, s);
    InitialPlaces(c, s);
    InitialClaims(c, s);
  }

  lemma StepKeepsInv(c: Config, s: World, step: Step)
    requires c.Valid() && Inv(c, s) && Enabled(c, s, step)
    ensures Inv(c, Apply(c, s, step))
  {
    hide c.Valid, Enabled, Apply, RoutingInv, AppendInv, ShapeInv, LedgerInv, ChainInv, ReachInv, FrontierInv, CountingInv;
    StepKeepsRouting(c, s, step);
    StepKeepsOrder(c, s, step);
    StepKeepsShape(c, s, step);
    StepKeepsLedger(c, s, step);
    StepKeepsChain(c, s, step);
    StepKeepsReach(c, s, step);
    StepKeepsFrontier(c, s, step);
    StepKeepsCounting(c, s, step);
  }

  lemma {:induction false} RunKeepsInv(c: Config, trace: seq<World>, steps: seq<Step>, i: nat)
    requires c.Valid() && Execution(c, trace, steps) && Initial(c, trace[0]) && i < |trace|
    ensures Inv(c, trace[i])
  {
    hide c.Valid, Enabled, Apply, Inv;
    if i == 0 {
      InitialInv(c, trace[0]);
    } else {
      RunKeepsInv(c, trace, steps, i - 1);
      StepKeepsInv(c, trace[i - 1], steps[i - 1]);
    }
  }

  // ---------------------------------------------------------------- append before forward

  /** For each job the stages whose output is logged form a prefix of the pipeline, in every state of every run. */
  lemma OutputsFormAPrefix(c: Config, trace: seq<World>, steps: seq<Step>, t: nat, jobId: string, i: nat, k: nat)
    requires c.Valid() && Execution(c, trace, steps) && Initial(c, trace[0]) && t < |trace|
    requires i <= k < c.N() && Done(c, trace[t].db.events, jobId, k)
    ensures Done(c, trace[t].db.events, jobId, i)
    ensures Begun(c, trace[t].db.events, jobId, i)
  {
    hide Enabled, Apply, RoutingInv, ShapeInv, LedgerInv, ChainInv, ReachInv, FrontierInv, CountingInv;
    RunKeepsInv(c, trace, steps, t);
    DoneIsPlaced(c, trace[t], jobId, k);
    assert i < k ==> Done(c, trace[t].db.events, jobId, i);
    DoneIsPlaced(c, trace[t], jobId, i);
  }

  lemma DoneIsPlaced(c: Config, s: World, jobId: string, k: nat)
    requires c.Valid() && AppendInv(c, s) && k < c.N() && Done(c, s.db.events, jobId, k)
    ensures Prior(c, s.db.events, jobId, k) && Begun(c, s.db.events, jobId, k)
  {
    hide Prior, Begun, MessagesPrior, WorkerPrior, FeederPrior, RowsPrior;
    var events := s.db.events;
    var x :| 0 <= x < |events| && events[x].runId == c.Run() && events[x].jobId == jobId
      && events[x].stage == c.Name(k) && events[x].kind == StageOutput;
    assert Placed(c, events, events[x]);
    var l: nat :| EventAt(c, events, events[x], l);
    c.manifest.StageNameInjective(k, l);
  }

  /** A job waits at a position, or started there, only once every earlier stage's output is logged. */
  lemma NothingForwardedUnlogged(c: Config, trace: seq<World>, steps: seq<Step>, t: nat, jobId: string, i: nat, k: nat)
    requires c.Valid() && Execution(c, trace, steps) && Initial(c, trace[0]) && t < |trace|
    requires i < k <= c.N()
    requires Queued(trace[t], jobId, k) || (k < c.N() && Begun(c, trace[t].db.events, jobId, k))
             || (k == c.N() && jobId in TerminalJobs(c, trace[t]))
    ensures Done(c, trace[t].db.events, jobId, i)
  {
    hide Enabled, Apply, RoutingInv, ShapeInv, LedgerInv, ReachInv, FrontierInv, CountingInv;
    var s := trace[t];
    RunKeepsInv(c, trace, steps, t);
    if Queued(s, jobId, k) {
      var m :| m in s.ready && m.job.jobId == jobId && m.pos == k;
      assert Prior(c, s.db.events, m.job.jobId, m.pos);
    } else if k < c.N() {
      BegunIsPlaced(c, s, jobId, k);
    } else {
      assert HasTerminalRow(c, s.db.rows, jobId);
      assert c.Key(jobId, k) in s.db.rows;
      assert Prior(c, s.db.events, jobId, k);
    }
  }

  lemma BegunIsPlaced(c: Config, s: World, jobId: string, k: nat)
    requires c.Valid() && AppendInv(c, s) && k < c.N() && Begun(c, s.db.events, jobId, k)
    ensures Prior(c, s.db.events, jobId, k)
  {
    hide Prior, MessagesPrior, WorkerPrior, FeederPrior, RowsPrior;
    var events := s.db.events;
    var x :| 0 <= x < |events| && events[x].runId == c.Run() && events[x].jobId == jobId
      && events[x].stage == c.Name(k) && events[x].kind == StageStarted;
    assert Placed(c, events, events[x]);
    var l: nat :| EventAt(c, events, events[x], l);
    c.manifest.StageNameInjective(k, l);
  }

  /**
   * Progress numbers are a funnel in every state of every run: completed jobs of a stage are among its started ones,
   * so the in-flight number needs no clamp, and each stage only starts what the stage before it completed.
   */
  lemma ProgressIsAFunnel(c: Config, trace: seq<World>, steps: seq<Step>, t: nat, k: nat)
    requires c.Valid() && Execution(c, trace, steps) && Initial(c, trace[0]) && t < |trace| && k < c.N()
    ensures var started := JobsWith(OfRun(trace[t].db.events, c.Run()), c.Name(k), StageStarted);
            var completed := JobsWith(OfRun(trace[t].db.events, c.Run()), c.Name(k), StageOutput);
            && completed <= started && InFlight(started, completed) == |started - completed| == |started| - |completed|
            && (k + 1 < c.N() ==> JobsWith(OfRun(trace[t].db.events, c.Run()), c.Name(k + 1), StageStarted) <= completed)
            && (k + 1 == c.N() ==> TerminalJobs(c, trace[t]) <= completed)
  {
    hide Enabled, Apply, Execution, Initial, c.Valid, OfRun, JobsWith, InFlight, TerminalIds;
    var events := trace[t].db.events;
    var started, completed := JobsWith(OfRun(events, c.Run()), c.Name(k), StageStarted), JobsWith(OfRun(events, c.Run()), c.Name(k), StageOutput);
    forall id | id in completed ensures id in started {
      JobsOfRun(events, c.Run(), c.Name(k), StageOutput, id);
      OutputsFormAPrefix(c, trace, steps, t, id, k, k);
      JobsOfRun(events, c.Run(), c.Name(k), StageStarted, id);
    }
    InFlightCountsOpenJobs(started, completed);
    if k + 1 < c.N() {
      forall id | id in JobsWith(OfRun(events, c.Run()), c.Name(k + 1), StageStarted) ensures id in completed {
        JobsOfRun(events, c.Run(), c.Name(k + 1), StageStarted, id);
        NothingForwardedUnlogged(c, trace, steps, t, id, k, k + 1);
        JobsOfRun(events, c.Run(), c.Name(k), StageOutput, id);
      }
    } else {
      forall id | id in TerminalJobs(c, trace[t]) ensures id in completed {
        NothingForwardedUnlogged(c, trace, steps, t, id, k, k + 1);
        JobsOfRun(events, c.Run(), c.Name(k), StageOutput, id);
      }
    }
  }

  // ---------------------------------------------------------------- nothing is lost

  /** In every state of every run, something stands for each fed job at its furthest position. */
  lemma WorkIsNeverLost(c: Config, trace: seq<World>, steps: seq<Step>, t: nat, jobId: string)
    requires c.Valid() && Execution(c, trace, steps) && Initial(c, trace[0]) && t < |trace|
    requires jobId in trace[t].marked
    ensures Standing(c, trace[t], jobId)
  {
    hide Enabled, Apply, RoutingInv, AppendInv, ShapeInv, LedgerInv, ChainInv, ReachInv, CountingInv, Standing;
    RunKeepsInv(c, trace, steps, t);
  }

  lemma WorkerPublishIsKept(c: Config, s: World, w: nat)
    requires c.Valid() && RoutingInv(c, s) && WorkerCan(c, s, w, BrokerHandles) && s.workers[w].frames[0].Publish?
    ensures s.workers[w].frames[0].message in WorkerDoes(c, s, w, BrokerHandles).ready
  {
    hide c.Valid, RowsOk, TapOk, FeederOk;
    var me := s.workers[w];
    assert WorkerOk(c, s.declared, c.slots[w].stage, me);
    QueueDeclared(c, s.declared, me.frames[0].message.pos, me.frames[0].message.job.partitionKey);
  }

  lemma FeederPublishIsKept(c: Config, s: World, f: nat, i: nat)
    requires c.Valid() && RoutingInv(c, s) && FeedCan(c, s, f, PublishMarked(i))
    ensures var item := s.feeders[f].marked[i];
            FeedDoes(c, s, f, PublishMarked(i)).ready == s.ready + [Message(c.Queue(item.pos, item.job.partitionKey), item.pos, item.job)]
  {
    hide c.Valid, RowsOk, TapOk, WorkerOk, MessageOk;
    assert FeederOk(c, s.declared, s.feeders[f]);
    var item := s.feeders[f].marked[i];
    assert Declared(c, s.declared, item.job.partitionKey);
    InputQueueOf(c, item.pos, item.job.partitionKey);
    QueueDeclared(c, s.declared, item.pos, item.job.partitionKey);
  }

  ghost predicate Kept(before: World, step: Step, after: World) {
    match step
    case AtWorker(w, BrokerHandles) =>
      w < |before.workers| && before.workers[w].frames != [] && before.workers[w].frames[0].Publish? ==>
        before.workers[w].frames[0].message in after.ready
    case AtFeeder(f, PublishMarked(i)) =>
      f < |before.feeders| && before.feeders[f].Feeding? && i < |before.feeders[f].marked| ==>
        exists m :: after.ready == before.ready + [m] && m.job == before.feeders[f].marked[i].job && m.pos == before.feeders[f].marked[i].pos
    case _ => true
  }

  /** No publish is ever dropped: what a worker or a feeder is about to publish goes to a declared queue. */
  lemma NoPublishIsDropped(c: Config, trace: seq<World>, steps: seq<Step>, t: nat)
    requires c.Valid() && Execution(c, trace, steps) && Initial(c, trace[0]) && t < |steps|
    ensures Kept(trace[t], steps[t], trace[t + 1])
  {
    hide c.Valid, RoutingInv, AppendInv, ShapeInv, LedgerInv, ChainInv, ReachInv, FrontierInv, CountingInv, WorkerDoes, FeedDoes, TapDoes;
    RunKeepsInv(c, trace, steps, t);
    var s, step := trace[t], steps[t];
    if step.AtWorker? && step.work.BrokerHandles? && s.workers[step.w].frames[0].Publish? {
      WorkerPublishIsKept(c, s, step.w);
    } else if step.AtFeeder? && step.feed.PublishMarked? {
      FeederPublishIsKept(c, s, step.f, step.feed.i);
    }
  }

  /** A row of a stage names the stage's input queue for the partition of the job it stores. */
  lemma RowsNameTheirQueues(c: Config, trace: seq<World>, steps: seq<Step>, t: nat, jobId: string, k: nat)
    requires c.Valid() && Execution(c, trace, steps) && Initial(c, trace[0]) && t < |trace|
    requires k < c.N() && c.Key(jobId, k) in trace[t].db.rows
    ensures var row := trace[t].db.rows[c.Key(jobId, k)];
            && Some(row.queueName) == c.manifest.StageInputQueue(c.Name(k), row.partitionKey)
            && row.partitionKey == row.job.partitionKey && row.targetTags == row.job.targetTags
            && row.job.Resolve() == row.job
            && row.job.jobId == jobId && row.job.runId == c.Run()
  {
    hide Enabled, Apply, AppendInv, ShapeInv, LedgerInv, ChainInv, ReachInv, FrontierInv, CountingInv, WorkerOk, TapOk, FeederOk, MessageOk;
    RunKeepsInv(c, trace, steps, t);
    var row := trace[t].db.rows[c.Key(jobId, k)];
    assert RowOk(c, jobId, k, row);
    c.manifest.RoutesChain(k, row.partitionKey);
  }

  // ---------------------------------------------------------------- holds

  /** A worker about to run its handler, or running it, on this job. */
  predicate Cleared(phase: Phase) {
    phase.Clear? || phase.MarkedRunning? || phase.Started?
  }

  /** At step u, connection w looked for a hold on this job and there was none. */
  ghost predicate FoundNoHold(trace: seq<World>, steps: seq<Step>, u: nat, w: nat, job: Job) {
    && u < |steps| && u < |trace| && steps[u] == AtWorker(w, CheckHold)
    && w < |trace[u].workers| && trace[u].workers[w].phase.Received? && job == trace[u].workers[w].phase.job.Resolve()
    && forall i :: 0 <= i < |trace[u].db.holds| ==> !Blocks(trace[u].db.holds[i], job.runId, job.targetTags, trace[u].now)
  }

  /** No delivery to connection w after step u and before state t. */
  ghost predicate SameDelivery(steps: seq<Step>, u: nat, t: nat, w: nat) {
    t <= |steps| && forall v :: u < v < t ==> !(steps[v].AtWorker? && steps[v].w == w && steps[v].work.Deliver?)
  }

  lemma WorkerClears(c: Config, s: World, w: nat, a: WorkerAction)
    requires WorkerCan(c, s, w, a) && Cleared(WorkerDoes(c, s, w, a).workers[w].phase)
    ensures var job := WorkerDoes(c, s, w, a).workers[w].phase.job;
            if a.CheckHold? then
              && s.workers[w].phase.Received? && job == s.workers[w].phase.job.Resolve()
              && ActiveHold(s.db.holds, job.runId, job.targetTags, s.now).None?
            else !a.Deliver? && Cleared(s.workers[w].phase) && s.workers[w].phase.job == job
  {
    hide ActiveHold, Upsert, LedgerSize, Subscribed;
  }

  lemma OthersKeepWorkers(c: Config, s: World, step: Step, w: nat)
    requires Enabled(c, s, step) && !(step.AtWorker? && step.w == w)
    ensures |Apply(c, s, step).workers| == |s.workers| && (w < |s.workers| ==> Apply(c, s, step).workers[w] == s.workers[w])
  {
    hide WorkerDoes, TapDoes, FeedDoes, WorkerCan, TapCan, FeedCan;
    match step
    case AtWorker(v, a) => WorkerFrame(c, s, v, a);
    case AtTap(t, a) => TapFrame(c, s, t, a);
    case AtFeeder(f, a) => FeederFrame(c, s, f, a);
    case AtOperator(a) => OperatorFrame(c, s, a);
  }

  lemma NoneCleared(c: Config, s: World)
    requires c.Valid() && Initial(c, s)
    ensures forall w :: 0 <= w < |s.workers| ==> !Cleared(s.workers[w].phase)
  {
  }

  /** A handler runs only after a check, made for the same delivery, that found no hold blocking the job. */
  lemma {:induction false} HandlerRunsAfterClearCheck(c: Config, trace: seq<World>, steps: seq<Step>, t: nat, w: nat)
    requires c.Valid() && Execution(c, trace, steps) && Initial(c, trace[0]) && t < |trace|
    requires w < |trace[t].workers| && Cleared(trace[t].workers[w].phase)
    ensures exists u: nat :: u < t && FoundNoHold(trace, steps, u, w, trace[t].workers[w].phase.job) && SameDelivery(steps, u, t, w)
  {
    hide c.Valid, Initial, WorkerDoes, WorkerCan, TapDoes, TapCan, FeedDoes, FeedCan, ActiveHold, Blocks;
    if t == 0 {
      NoneCleared(c, trace[0]);
    } else {
      var s, step := trace[t - 1], steps[t - 1];
      var job := trace[t].workers[w].phase.job;
      if step.AtWorker? && step.w == w {
        WorkerClears(c, s, w, step.work);
        if step.work.CheckHold? {
          ActiveHoldIsFirst(s.db.holds, job.runId, job.targetTags, s.now);
          assert FoundNoHold(trace, steps, t - 1, w, job) && SameDelivery(steps, t - 1, t, w);
          return;
        }
      } else {
        OthersKeepWorkers(c, s, step, w);
      }
      HandlerRunsAfterClearCheck(c, trace, steps, t - 1, w);
      var u: nat :| u < t - 1 && FoundNoHold(trace, steps, u, w, job) && SameDelivery(steps, u, t - 1, w);
      assert SameDelivery(steps, u, t, w);
    }
  }

  // ---------------------------------------------------------------- recorded facts

  /** Acknowledged by a tap, then in the log, then in a TERMINAL row: in this order, and for good. */
  lemma TerminalWritesAreChained(c: Config, trace: seq<World>, steps: seq<Step>, t: nat)
    requires c.Valid() && Execution(c, trace, steps) && Initial(c, trace[0]) && t < |trace|
    ensures trace[t].settled <= TerminalJobs(c, trace[t])
    ensures forall id :: id in TerminalJobs(c, trace[t]) ==> HasTerminalRow(c, trace[t].db.rows, id)
    ensures forall x :: 0 <= x < |trace[t].taps| ==> trace[t].taps[x].known <= TerminalJobs(c, trace[t])
  {
    hide Enabled, Apply, RoutingInv, AppendInv, ShapeInv, LedgerInv, ReachInv, FrontierInv, CountingInv, TerminalIds;
    RunKeepsInv(c, trace, steps, t);
    assert forall x :: 0 <= x < |trace[t].taps| ==> TapChain(c, trace[t].db.rows, TerminalJobs(c, trace[t]), trace[t].taps[x]);
  }

  lemma {:induction false} TerminalRowsAreForGood(c: Config, trace: seq<World>, steps: seq<Step>, t: nat, u: nat, jobId: string)
    requires c.Valid() && Execution(c, trace, steps) && Initial(c, trace[0]) && t <= u < |trace|
    requires HasTerminalRow(c, trace[t].db.rows, jobId)
    ensures HasTerminalRow(c, trace[u].db.rows, jobId)
  {
    hide c.Valid, Enabled, Apply, HasTerminalRow, RoutingInv, AppendInv, ShapeInv, LedgerInv, ReachInv, FrontierInv, CountingInv, ChainInv;
    if t < u {
      TerminalRowsAreForGood(c, trace, steps, t, u - 1, jobId);
      RunKeepsInv(c, trace, steps, u - 1);
      TerminalRowsStay(c, trace[u - 1], steps[u - 1], jobId);
    }
  }

  /** Row shapes and the ledger behind each row, under any interleaving and any crash. */
  lemma RowsKeepTheirShape(c: Config, trace: seq<World>, steps: seq<Step>, t: nat, key: RowKey)
    requires c.Valid() && Execution(c, trace, steps) && Initial(c, trace[0]) && t < |trace|
    requires key in trace[t].db.rows
    ensures ShapeOk(trace[t].db.rows[key], key.stage == TERMINAL_STAGE)
    ensures RowBacked(trace[t].db.attempts, key, trace[t].db.rows[key])
    ensures trace[t].db.rows[key].status == DeadLettered ==> LedgerSize(trace[t].db.attempts, key) >= c.maxAttempts
  {
    hide Enabled, Apply, RoutingInv, AppendInv, ReachInv, FrontierInv, CountingInv, ChainInv, LedgerSize, HasEntry;
    RunKeepsInv(c, trace, steps, t);
    assert RowBacked(trace[t].db.attempts, key, trace[t].db.rows[key]);
    if trace[t].db.rows[key].status == DeadLettered {
      DeadLetteredReachedLimit(c, trace[t].db.attempts, key, trace[t].db.rows[key]);
    }
  }

  /** The attempts of a row are numbered 1, 2, ... if and only if each was inserted while its count still stood. */
  lemma {:induction false} AttemptsAreNumberedExactly(c: Config, trace: seq<World>, steps: seq<Step>, t: nat, key: RowKey)
    requires c.Valid() && Execution(c, trace, steps) && Initial(c, trace[0]) && t < |trace|
    ensures Upto(Numbers(trace[t].db.attempts, key)) <==> forall i :: 0 <= i < t ==> CountStands(c, trace[i], steps[i], key)
  {
    hide c.Valid, Enabled, Apply, NumberInserted, Numbers, LedgerSize;
    if t == 0 {
      NothingRecorded(c, trace[0], key);
    } else {
      AttemptsAreNumberedExactly(c, trace, steps, t - 1, key);
      var before := Numbers(trace[t - 1].db.attempts, key);
      NumbersCount(trace[t - 1].db.attempts, key);
      StepRecords(c, trace[t - 1], steps[t - 1], key);
      var number := NumberInserted(c, trace[t - 1], steps[t - 1], key);
      if number.Some? {
        NumberedOnce(before, number.value);
      }
    }
  }

  lemma NumberedOnce(before: seq<nat>, number: nat)
    ensures Upto(before + [number]) <==> Upto(before) && number == |before| + 1
  {
    var after := before + [number];
    if Upto(after) {
      assert after[|before|] == number;
      assert forall i :: 0 <= i < |before| ==> before[i] == after[i];
    }
  }

  lemma NothingRecorded(c: Config, s: World, key: RowKey)
    requires c.Valid() && Initial(c, s)
    ensures LedgerSize(s.db.attempts, key) == 0 && Numbers(s.db.attempts, key) == [] && RetryEntries(s.db.attempts, key) == 0
    ensures AloneInv(c, s, key)
  {
  }

  /**
   * A row has at most max(0, max_attempts - 1) retried attempts if and only if each of its attempts was inserted while
   * a new count would have chosen the same action; it then has that many as soon as its ledger is that long.
   */
  lemma {:induction false} RetriesAreBoundedExactly(c: Config, trace: seq<World>, steps: seq<Step>, t: nat, key: RowKey)
    requires c.Valid() && Execution(c, trace, steps) && Initial(c, trace[0]) && t < |trace|
    ensures var size, retries := LedgerSize(trace[t].db.attempts, key), RetryEntries(trace[t].db.attempts, key);
            && (retries <= RetryLimit(c) <==> forall i :: 0 <= i < t ==> ActionStands(c, trace[i], steps[i], key))
            && retries >= (if size < RetryLimit(c) then size else RetryLimit(c))
            && (retries <= RetryLimit(c) ==> retries <= size)
  {
    hide c.Valid, Enabled, Apply, NumberInserted, LedgerSize, RetryEntries, Numbers, RoutingInv, AppendInv, ReachInv, FrontierInv, CountingInv, ChainInv, ShapeInv;
    if t == 0 {
      NothingRecorded(c, trace[0], key);
    } else {
      var s, step := trace[t - 1], steps[t - 1];
      RetriesAreBoundedExactly(c, trace, steps, t - 1, key);
      RunKeepsInv(c, trace, steps, t - 1);
      StepRecords(c, s, step, key);
      CountIsNoMore(c, s, step, key);
    }
  }

  /** A count is at most the ledger size at the insert. */
  lemma CountIsNoMore(c: Config, s: World, step: Step, key: RowKey)
    requires LedgerInv(c, s)
    ensures NumberInserted(c, s, step, key).Some? ==> 1 <= NumberInserted(c, s, step, key).value <= LedgerSize(s.db.attempts, key) + 1
  {
    hide LedgerSize;
    if NumberInserted(c, s, step, key).Some? {
      assert WorkerBacked(s.db.attempts, c.Name(c.slots[step.w].stage), s.workers[step.w]);
    }
  }

  lemma {:induction false} RunKeepsAlone(c: Config, trace: seq<World>, steps: seq<Step>, t: nat, key: RowKey)
    requires c.Valid() && Execution(c, trace, steps) && Initial(c, trace[0]) && t < |trace|
    requires forall i :: 0 <= i < t ==> StartsAlone(c, trace[i], steps[i], key)
    ensures AloneInv(c, trace[t], key)
  {
    hide c.Valid, Enabled, Apply, AloneInv, StartsAlone;
    if t == 0 {
      NothingRecorded(c, trace[0], key);
    } else {
      RunKeepsAlone(c, trace, steps, t - 1, key);
      StepKeepsAlone(c, trace[t - 1], steps[t - 1], key);
    }
  }

  /** When recordings of one row do not overlap, its attempts are numbered 1, 2, ... and retried only below the limit, whatever other rows do. */
  lemma AttemptsAreNumbered(c: Config, trace: seq<World>, steps: seq<Step>, t: nat, key: RowKey)
    requires c.Valid() && Execution(c, trace, steps) && Initial(c, trace[0]) && t < |trace|
    requires forall i :: 0 <= i < t ==> StartsAlone(c, trace[i], steps[i], key)
    ensures Upto(Numbers(trace[t].db.attempts, key))
    ensures RetryEntries(trace[t].db.attempts, key) <= RetryLimit(c)
  {
    hide c.Valid, Enabled, Apply, StartsAlone, LedgerSize, AloneInv, CountStands, ActionStands;
    forall i | 0 <= i < t ensures CountStands(c, trace[i], steps[i], key) && ActionStands(c, trace[i], steps[i], key) {
      RunKeepsAlone(c, trace, steps, i, key);
      AloneCountStands(c, trace[i], steps[i], key);
    }
    AttemptsAreNumberedExactly(c, trace, steps, t, key);
    RetriesAreBoundedExactly(c, trace, steps, t, key);
  }

  /** One worker connection per stage is enough. */
  lemma OneConnectionPerStageIsBounded(c: Config, trace: seq<World>, steps: seq<Step>, t: nat, key: RowKey)
    requires c.Valid() && Execution(c, trace, steps) && Initial(c, trace[0]) && t < |trace|
    requires forall v, w :: 0 <= v < w < |c.slots| ==> c.slots[v].stage != c.slots[w].stage
    ensures Upto(Numbers(trace[t].db.attempts, key))
    ensures RetryEntries(trace[t].db.attempts, key) <= RetryLimit(c)
  {
    hide c.Valid, Enabled, Apply, StartsAlone, RoutingInv, AppendInv, ReachInv, FrontierInv, CountingInv, ChainInv, ShapeInv, LedgerInv;
    forall i | 0 <= i < t ensures StartsAlone(c, trace[i], steps[i], key) {
      RunKeepsInv(c, trace, steps, i);
      SlotCount(c, trace[i]);
      OneConnectionStartsAlone(c, trace[i], steps[i], key);
    }
    AttemptsAreNumbered(c, trace, steps, t, key);
  }

  // ---------------------------------------------------------------- refinement

  /** A claim that handlers carry forward holds of every message, row and event of every run, at its position. */
  lemma {:induction false} RunRefines(c: Config, rule: Rule, trace: seq<World>, steps: seq<Step>, t: nat)
    requires c.Valid() && Execution(c, trace, steps) && Initial(c, trace[0]) && t < |trace|
    requires forall i :: 0 <= i < t ==> Faithful(c, rule, trace[i], steps[i])
    ensures RefineInv(c, rule, trace[t])
  {
    hide c.Valid, Enabled, Apply, RefineInv, Faithful, RoutingInv, AppendInv, ReachInv, FrontierInv, CountingInv, ChainInv, ShapeInv, LedgerInv;
    if t == 0 {
      InitialInv(c, trace[0]);
    } else {
      RunRefines(c, rule, trace, steps, t - 1);
      RunKeepsInv(c, trace, steps, t - 1);
      StepRefines(c, rule, trace[t - 1], steps[t - 1]);
    }
  }

  /**
   * Whatever crashes, duplicates, holds, retries and replays happen, a message at position k carries the first k
   * handlers applied in order to its seed, and a TERMINAL event carries all of them.
   */
  lemma DistributedRunIsSequential(c: Config, plan: Plan, trace: seq<World>, steps: seq<Step>, t: nat)
    requires c.Valid() && |plan.handlers| == c.N() && Execution(c, trace, steps) && Initial(c, trace[0]) && t < |trace|
    requires forall i :: 0 <= i < t ==> FollowsPlan(c, plan, trace[i], steps[i])
    ensures forall m :: m in trace[t].ready ==>
              m.pos <= c.N() && m.job.jobId in plan.seeds && m.job == Fold(plan.handlers, m.pos, plan.seeds[m.job.jobId])
    ensures forall e :: e in trace[t].db.events && e.kind == TerminalEvent ==>
              e.jobId in plan.seeds && e.payload == Whole(Fold(plan.handlers, c.N(), plan.seeds[e.jobId]))
              && e.lane == Fold(plan.handlers, c.N(), plan.seeds[e.jobId]).lane && e.stage == "terminal"
    ensures forall e, k: nat {:trigger LogsFold(c, plan, e, k)} :: e in trace[t].db.events && k < c.N() && e.stage == c.Name(k) ==> LogsFold(c, plan, e, k)
  {
    hide c.Valid, Enabled, Apply, Faithful, FollowsPlan, RowsAt, FeederAt, WorkerAt, Fold, LogsFold;
    forall i | 0 <= i < t ensures Faithful(c, FoldRule(plan), trace[i], steps[i]) {
      PlanIsFaithful(c, plan, trace[i], steps[i]);
    }
    RunRefines(c, FoldRule(plan), trace, steps, t);
    var events := trace[t].db.events;
    forall e | e in events ensures Sequential(c, FoldRule(plan), e) {
      var x :| 0 <= x < |events| && events[x] == e;
    }
    forall e, k: nat {:trigger LogsFold(c, plan, e, k)} | e in events && k < c.N() && e.stage == c.Name(k) ensures LogsFold(c, plan, e, k) {
      SequentialLogsFold(c, plan, e, k);
    }
  }

  /** A stage's events carry the sequential envelope before and after its handler. */
  ghost predicate LogsFold(c: Config, plan: Plan, e: Event, k: nat)
    requires k < c.N() == |plan.handlers|
  {
    && e.jobId in plan.seeds && !e.kind.TerminalEvent?
    && var before := Fold(plan.handlers, k, plan.seeds[e.jobId]);
       var after := Fold(plan.handlers, k + 1, plan.seeds[e.jobId]);
       && (e.kind == StageStarted ==> e.lane == before.lane && e.payload == StartedAt(before.stepIndex))
       && (e.kind == StageOutput ==>
             && e.lane == after.lane
             && e.payload == OutputOf(after.stepIndex, after.stepOutputs,
                                      if c.Name(k) in after.stepRecords then Some(after.stepRecords[c.Name(k)]) else None))
  }

  lemma SequentialLogsFold(c: Config, plan: Plan, e: Event, k: nat)
    requires c.Valid() && k < c.N() == |plan.handlers| && Sequential(c, FoldRule(plan), e) && e.stage == c.Name(k)
    ensures LogsFold(c, plan, e, k)
  {
    hide Fold;
    var l: nat, job :| EventValue(c, FoldRule(plan), e, l, job);
    c.manifest.StageNameInjective(k, l);
  }

  /** A stage's events carry its position, and the next one once it is done. */
  predicate LogsStamp(c: Config, e: Event, k: nat) {
    && (e.kind == StageStarted ==> e.payload == StartedAt(k))
    && (e.kind == StageOutput ==> e.payload.OutputOf? && e.payload.stepIndex == k + 1)
  }

  lemma SequentialLogsStamp(c: Config, e: Event, k: nat)
    requires c.Valid() && k < c.N() && Sequential(c, StampRule(), e) && e.stage == c.Name(k)
    ensures LogsStamp(c, e, k)
  {
    var l: nat, job :| EventValue(c, StampRule(), e, l, job);
    c.manifest.StageNameInjective(k, l);
  }

  /** The step index on the wire is the position of the queue, and the whole payload of a TERMINAL event carries the last one. */
  lemma StepIndexIsPosition(c: Config, trace: seq<World>, steps: seq<Step>, t: nat)
    requires c.Valid() && Execution(c, trace, steps) && Initial(c, trace[0]) && t < |trace|
    requires forall i :: 0 <= i < t ==> KeepsStamps(c, trace[i], steps[i])
    ensures forall m :: m in trace[t].ready ==>
              m.pos <= c.N() && m.job.stepIndex == m.pos && m.queue == c.Queue(m.pos, m.job.partitionKey)
    ensures forall e :: e in trace[t].db.events && e.kind == TerminalEvent ==> e.payload.Whole? && e.payload.job.stepIndex == c.N()
    ensures forall e, k: nat {:trigger LogsStamp(c, e, k)} :: e in trace[t].db.events && k < c.N() && e.stage == c.Name(k) ==> LogsStamp(c, e, k)
  {
    hide Enabled, Apply, Faithful, KeepsStamps, RowsAt, FeederAt, WorkerAt, AppendInv, ReachInv, FrontierInv, CountingInv,
      ChainInv, ShapeInv, LedgerInv, WorkerOk, TapOk, FeederOk, RowsOk;
    forall i | 0 <= i < t ensures Faithful(c, StampRule(), trace[i], steps[i]) {
      StampsAreFaithful(c, trace[i], steps[i]);
    }
    RunRefines(c, StampRule(), trace, steps, t);
    RunKeepsInv(c, trace, steps, t);
    var events := trace[t].db.events;
    forall e | e in events ensures Sequential(c, StampRule(), e) {
      var x :| 0 <= x < |events| && events[x] == e;
    }
    forall e, k: nat {:trigger LogsStamp(c, e, k)} | e in events && k < c.N() && e.stage == c.Name(k) ensures LogsStamp(c, e, k) {
      SequentialLogsStamp(c, e, k);
    }
    forall m | m in trace[t].ready ensures m.job.stepIndex == m.pos {
      assert MessageAt(StampRule(), m);
    }
  }

  // ---------------------------------------------------------------- completion

  lemma {:induction false} RunKeepsActive(c: Config, trace: seq<World>, steps: seq<Step>, t: nat)
    requires c.Valid() && Execution(c, trace, steps) && Initial(c, trace[0]) && t < |trace|
    requires forall i :: 0 <= i < t ==> FailsCleanly(c, trace[i], steps[i])
    ensures NoEscape(c, trace[t])
  {
    hide c.Valid, Enabled, Apply, NoEscape, FailsCleanly, RoutingInv, AppendInv, ReachInv, FrontierInv, CountingInv, ChainInv, ShapeInv, LedgerInv;
    if t == 0 {
      InitialInv(c, trace[0]);
    } else {
      RunKeepsActive(c, trace, steps, t - 1);
      RunKeepsInv(c, trace, steps, t - 1);
      StepKeepsActive(c, trace[t - 1], steps[t - 1]);
    }
  }

  /** No job escapes the active batches in any state of a run exactly when every step of it fails cleanly. */
  lemma {:induction false} NothingEscapesExactly(c: Config, trace: seq<World>, steps: seq<Step>, t: nat)
    requires c.Valid() && Execution(c, trace, steps) && Initial(c, trace[0]) && t < |trace|
    ensures (forall i :: 0 <= i <= t ==> NoEscape(c, trace[i])) <==> (forall i :: 0 <= i < t ==> FailsCleanly(c, trace[i], steps[i]))
  {
    hide c.Valid, Enabled, Apply, NoEscape, FailsCleanly, RoutingInv, AppendInv, ReachInv, FrontierInv, CountingInv, ChainInv, ShapeInv, LedgerInv;
    if t == 0 {
      InitialInv(c, trace[0]);
    } else {
      NothingEscapesExactly(c, trace, steps, t - 1);
      RunKeepsInv(c, trace, steps, t - 1);
      if NoEscape(c, trace[t - 1]) {
        StepEscapesExactly(c, trace[t - 1], steps[t - 1]);
      }
      assert (forall i :: 0 <= i <= t ==> NoEscape(c, trace[i])) <==> (forall i :: 0 <= i <= t - 1 ==> NoEscape(c, trace[i])) && NoEscape(c, trace[t]);
      assert (forall i :: 0 <= i < t ==> FailsCleanly(c, trace[i], steps[i]))
          <==> (forall i :: 0 <= i < t - 1 ==> FailsCleanly(c, trace[i], steps[i])) && FailsCleanly(c, trace[t - 1], steps[t - 1]);
    }
  }

  /** Seed batches never overlap while active, so their counts add up to the number of distinct jobs seeded. */
  lemma ExpectedCountsDistinctJobs(c: Config, trace: seq<World>, steps: seq<Step>, t: nat)
    requires c.Valid() && Execution(c, trace, steps) && Initial(c, trace[0]) && t < |trace|
    ensures ExpectedCount(trace[t].db.batches, c.Run()) == |ActiveJobs(c, trace[t])|
  {
    hide c.Valid, Enabled, Apply, RoutingInv, AppendInv, ReachInv, FrontierInv, ChainInv, ShapeInv, LedgerInv, BatchesOk, ExpectedCount, ActiveIds;
    RunKeepsInv(c, trace, steps, t);
    ExpectedIsExact(trace[t].db.batches, c.Run());
  }

  /** In every reachable state the count test is wrong exactly when escaped jobs make up for missing ones. */
  lemma CompletionTestMisleadsExactly(c: Config, trace: seq<World>, steps: seq<Step>, t: nat)
    requires c.Valid() && Execution(c, trace, steps) && Initial(c, trace[0]) && t < |trace|
    ensures var active, recorded := ActiveJobs(c, trace[t]), TerminalJobs(c, trace[t]);
            !(|recorded| >= ExpectedCount(trace[t].db.batches, c.Run()) <==> active <= recorded)
            <==> active - recorded != {} && |recorded - active| >= |active - recorded|
  {
    hide c.Valid, Enabled, Apply, RoutingInv, AppendInv, ReachInv, FrontierInv, ChainInv, ShapeInv, LedgerInv, BatchesOk, ExpectedCount, ActiveIds, TerminalIds;
    RunKeepsInv(c, trace, steps, t);
    CountMisleadsExactly(trace[t].db.batches, c.Run(), TerminalJobs(c, trace[t]));
  }

  /** With clean failures, the count test of `RunStatus.is_complete` is true exactly when every active job has its TERMINAL event. */
  lemma CompletionTestIsExact(c: Config, trace: seq<World>, steps: seq<Step>, t: nat)
    requires c.Valid() && Execution(c, trace, steps) && Initial(c, trace[0]) && t < |trace|
    requires forall i :: 0 <= i < t ==> FailsCleanly(c, trace[i], steps[i])
    ensures |TerminalJobs(c, trace[t])| >= ExpectedCount(trace[t].db.batches, c.Run())
            <==> ActiveJobs(c, trace[t]) <= TerminalJobs(c, trace[t])
  {
    hide c.Valid, Enabled, Apply, NoEscape, FailsCleanly, RoutingInv, AppendInv, ReachInv, FrontierInv, CountingInv, ChainInv, ShapeInv,
      LedgerInv, ExpectedCount, ActiveIds, TerminalIds;
    RunKeepsActive(c, trace, steps, t);
    RunKeepsInv(c, trace, steps, t);
    CompletionMeansAllRecorded(c, trace[t]);
  }

  predicate Seeds(step: Step) {
    step.AtFeeder? && step.feed.Seed?
  }

  /**
   * A tap that turns done after seeding stopped is confirmed by `RunStatus.is_complete` in every state after that,
   * whatever flags other taps carry.
   */
  lemma {:induction false} DoneIsConfirmed(c: Config, trace: seq<World>, steps: seq<Step>, t: nat, u: nat, x: nat)
    requires c.Valid() && Execution(c, trace, steps) && Initial(c, trace[0]) && t <= u < |trace|
    requires x < |trace[t].taps| && !trace[t].taps[x].done
    requires forall i :: t <= i < u ==> !Seeds(steps[i])
    ensures |trace[u].taps| == |trace[t].taps|
    ensures trace[u].taps[x].done ==> Confirmed(c, trace[u])
  {
    hide c.Valid, Enabled, Apply, RoutingInv, AppendInv, ReachInv, FrontierInv, CountingInv, ChainInv, ShapeInv, LedgerInv, Confirmed;
    if t < u {
      DoneIsConfirmed(c, trace, steps, t, u - 1, x);
      RunKeepsInv(c, trace, steps, u - 1);
      ConfirmedStays(c, trace[u - 1], steps[u - 1]);
      TurnsDone(c, trace[u - 1], steps[u - 1], x);
    }
  }

  /** A sole recorder's cache equals the log's terminal jobs whenever it is between flushes. */
  lemma {:induction false} SoleRecorderIsExact(c: Config, trace: seq<World>, steps: seq<Step>, t: nat)
    requires c.Valid() && Execution(c, trace, steps) && Initial(c, trace[0]) && t < |trace| && |trace[0].taps| == 1
    ensures SoleInv(c, trace[t])
    ensures trace[t].taps[0].phase.Collecting? ==> trace[t].taps[0].known == TerminalJobs(c, trace[t])
  {
    hide c.Valid, Enabled, Apply, RoutingInv, AppendInv, ReachInv, FrontierInv, CountingInv, ChainInv, ShapeInv, LedgerInv, TerminalIds;
    if t == 0 {
      InitialInv(c, trace[0]);
    } else {
      SoleRecorderIsExact(c, trace, steps, t - 1);
      RunKeepsInv(c, trace, steps, t - 1);
      StepKeepsSole(c, trace[t - 1], steps[t - 1]);
    }
  }

  // ---------------------------------------------------------------- drain

  /** From any reachable state, at most `Measure` steps can be taken without a crash, a stop, a new tap, a new seeding or a replay read. */
  lemma {:induction false} DrainTerminates(c: Config, trace: seq<World>, steps: seq<Step>, from: nat, t: nat)
    requires c.Valid() && Execution(c, trace, steps) && Initial(c, trace[0]) && from <= t < |trace|
    requires forall i :: from <= i < t ==> Settles(steps[i]) || steps[i].AtOperator?
    ensures |trace[from].workers| == |trace[t].workers| == |c.slots|
    ensures DrainSteps(steps[from..t]) <= Measure(c, trace[from]) - Measure(c, trace[t])
    ensures Measure(c, trace[t]) >= 0
  {
    hide c.Valid, Enabled, Apply, Measure, RoutingInv, AppendInv, ReachInv, FrontierInv, CountingInv, ChainInv, ShapeInv, LedgerInv, Settles;
    RunKeepsInv(c, trace, steps, t);
    SlotCount(c, trace[t]);
    MeasureNatural(c, trace[t]);
    if from < t {
      DrainTerminates(c, trace, steps, from, t - 1);
      RunKeepsInv(c, trace, steps, t - 1);
      StepDrains(c, trace[t - 1], steps[t - 1]);
      assert steps[from..t][..t - from - 1] == steps[from..t - 1];
    } else {
      assert steps[from..t] == [];
    }
  }

  /** Once a served run is quiet, each fed job is parked where replay finds it, or its TERMINAL event is logged. */
  lemma QuietRunIsSettled(c: Config, trace: seq<World>, steps: seq<Step>, t: nat, jobId: string)
    requires c.Valid() && Execution(c, trace, steps) && Initial(c, trace[0]) && t < |trace|
    requires Quiet(c, trace[t]) && Served(c, trace[t]) && jobId in trace[t].marked
    ensures RowIn(c, trace[t].db.rows, jobId, trace[t].Frontier(jobId), PARKED)
            || (trace[t].Frontier(jobId) == c.N() && jobId in TerminalJobs(c, trace[t]))
  {
    hide c.Valid, Enabled, Apply, RoutingInv, AppendInv, ReachInv, CountingInv, ChainInv, ShapeInv, LedgerInv, Quiet, Served, StandsBy, RowIn, TerminalIds;
    RunKeepsInv(c, trace, steps, t);
    assert Standing(c, trace[t], jobId);
    QuietIsSettled(c, trace[t], jobId, PARKED);
  }

  lemma {:induction false} RunIsSteady(c: Config, trace: seq<World>, steps: seq<Step>, t: nat)
    requires c.Valid() && Execution(c, trace, steps) && Initial(c, trace[0]) && t < |trace|
    requires forall i :: 0 <= i < t ==> PublishesItsMarks(trace[i], steps[i])
    ensures SteadyInv(c, trace[t])
  {
    hide c.Valid, Enabled, Apply, SteadyInv, PublishesItsMarks, RoutingInv, AppendInv, ReachInv, FrontierInv, CountingInv, ChainInv, ShapeInv, LedgerInv;
    if t == 0 {
      InitialIsSteady(c, trace[0]);
    } else {
      RunIsSteady(c, trace, steps, t - 1);
      RunKeepsInv(c, trace, steps, t - 1);
      StepKeepsSteady(c, trace[t - 1], steps[t - 1]);
    }
  }

  lemma InitialIsSteady(c: Config, s: World)
    requires c.Valid() && Initial(c, s)
    ensures SteadyInv(c, s)
  {
    hide c.Valid;
  }

  /**
   * If no seeding or replay failed or died between a mark and its publish, and none is under way, a quiet served run
   * has each fed job HELD, RETRY_WAITING or DEAD_LETTERED where the default replay finds it, or recorded.
   */
  lemma QuietRunIsStopped(c: Config, trace: seq<World>, steps: seq<Step>, t: nat, jobId: string)
    requires c.Valid() && Execution(c, trace, steps) && Initial(c, trace[0]) && t < |trace|
    requires forall i :: 0 <= i < t ==> PublishesItsMarks(trace[i], steps[i])
    requires forall f :: 0 <= f < |trace[t].feeders| ==> trace[t].feeders[f].Resting?
    requires Quiet(c, trace[t]) && Served(c, trace[t]) && jobId in trace[t].marked
    ensures RowIn(c, trace[t].db.rows, jobId, trace[t].Frontier(jobId), STOPPED)
            || (trace[t].Frontier(jobId) == c.N() && jobId in TerminalJobs(c, trace[t]))
  {
    hide c.Valid, Enabled, Apply, RoutingInv, AppendInv, ReachInv, FrontierInv, CountingInv, ChainInv, ShapeInv, LedgerInv, Quiet, Served,
      PublishesItsMarks, StandsBy, RowIn, TerminalIds;
    RunKeepsInv(c, trace, steps, t);
    RunIsSteady(c, trace, steps, t);
    assert !MarkedAt(trace[t], jobId, trace[t].Frontier(jobId));
    QuietIsSettled(c, trace[t], jobId, STOPPED);
  }

  /**
   * Under the same conditions a forced default replay selects, at its frontier, every fed job that is not recorded, and
   * an unforced one does so as soon as the row is not waiting for a later retry.
   */
  lemma QuietRunIsReplayable(c: Config, trace: seq<World>, steps: seq<Step>, t: nat, jobId: string, now: int)
    requires c.Valid() && Execution(c, trace, steps) && Initial(c, trace[0]) && t < |trace|
    requires forall i :: 0 <= i < t ==> PublishesItsMarks(trace[i], steps[i])
    requires forall f :: 0 <= f < |trace[t].feeders| ==> trace[t].feeders[f].Resting?
    requires Quiet(c, trace[t]) && Served(c, trace[t]) && jobId in trace[t].marked
    requires !(trace[t].Frontier(jobId) == c.N() && jobId in TerminalJobs(c, trace[t]))
    ensures var key := c.Key(jobId, trace[t].Frontier(jobId));
            && key in trace[t].db.rows
            && var row := trace[t].db.rows[key];
               && Replayable(DefaultReplay(c.Run(), true), now, key, row)
               && (row.notBefore.None? || row.notBefore.value <= now ==> Replayable(DefaultReplay(c.Run(), false), now, key, row))
  {
    hide c.Valid, Enabled, Apply, Quiet, Served, PublishesItsMarks, Replayable, TerminalIds;
    QuietRunIsStopped(c, trace, steps, t, jobId);
    var key := c.Key(jobId, trace[t].Frontier(jobId));
    DefaultReplaySelects(c.Run(), true, now, key, trace[t].db.rows[key]);
    DefaultReplaySelects(c.Run(), false, now, key, trace[t].db.rows[key]);
  }
}
