/** Left alone, a run drains: every worker, broker, tap and feeding step uses up some of a finite measure. */
module Drain {
  import opened Common
  import opened Manifest
  import opened Jobs
  import opened Documents
  import opened Protocol
  import opened Routing
  import opened TerminalChain
  import opened Frontier

  /** Everything that can still happen to a message at position k, as long as nothing crashes or is fed again. */
  function Weight(n: nat, k: nat): nat {
    if k <= n then 30 * (n - k + 1) else 0
  }

  function ReadyWeight(n: nat, ready: seq<Message>): nat {
    if ready == [] then 0 else ReadyWeight(n, ready[..|ready| - 1]) + Weight(n, ready[|ready| - 1].pos)
  }

  /** Steps left in a call of `_on_message`. */
  function Rank(phase: Phase): nat {
    match phase
    case Idle => 0
    case Received(_) => 14
    case HoldFound(_, _) => 13
    case Clear(_) => 13
    case MarkedRunning(_) => 12
    case Started(_) => 11
    case HandlerReturned(_) => 10
    case HandlerRaised(_, _) => 10
    case Counted(_, _, _) => 9
    case Inserted(_, _, _, _) => 8
    case OutputLogged(_) => 9
    case Sent(_) => 7
    case Recorded => 5
  }

  /** A publish the broker has not handled yet may still add a message at the next position. */
  function WorkerWeight(n: nat, stage: nat, worker: Worker): nat {
    if worker.unacked.None? then 0
    else
      Rank(worker.phase) + |worker.frames| + 1
      + if worker.frames != [] && worker.frames[0].Nack? then Weight(n, stage)
        else if worker.frames != [] && worker.frames[0].Publish? then Weight(n, stage + 1)
        else if worker.phase.Idle? || worker.phase.Sent? || worker.phase.Recorded? then 0
        else Weight(n, stage + 1)
  }

  function WorkersWeight(c: Config, workers: seq<Worker>): nat
    requires |workers| <= |c.slots|
  {
    if workers == [] then 0
    else
      var w := |workers| - 1;
      WorkersWeight(c, workers[..w]) + WorkerWeight(c.N(), c.slots[w].stage, workers[w])
  }

  function TapWeight(tap: Tap): int {
    var size := |tap.held|;
    match tap.phase
    case Off => 0
    case Opening => 8 * size + 1
    case Collecting => 8 * size
    case WritingRows(i) => 7 * size - i
    case AppendingEvents(i) => 5 * size - i
    case Acking(i) => 3 * size - i + 1
  }

  function TapsWeight(taps: seq<Tap>): int {
    if taps == [] then 0 else TapsWeight(taps[..|taps| - 1]) + TapWeight(taps[|taps| - 1])
  }

  /** Items as the messages they will become, as far as weights are concerned. */
  function Labels(items: seq<Item>): seq<Message> {
    seq(|items|, i requires 0 <= i < |items| => Message("", items[i].pos, items[i].job))
  }

  /** An item still has to be marked, perhaps declared, and published. */
  function FeederWeight(n: nat, feeder: Feeder): nat {
    match feeder
    case Resting => 0
    case Reading(todo) => ReadyWeight(n, Labels(todo)) + 3 * |todo| + 3
    case Feeding(_, declared, todo, marked) =>
      ReadyWeight(n, Labels(todo)) + 3 * |todo| + ReadyWeight(n, Labels(marked)) + |marked| + 1
      + if todo != [] && todo[0].job.partitionKey !in declared then 1 else 0
  }

  function FeedersWeight(n: nat, feeders: seq<Feeder>): nat {
    if feeders == [] then 0 else FeedersWeight(n, feeders[..|feeders| - 1]) + FeederWeight(n, feeders[|feeders| - 1])
  }

  function Measure(c: Config, s: World): int
    requires |s.workers| == |c.slots|
  {
    ReadyWeight(c.N(), s.ready) + WorkersWeight(c, s.workers) + TapsWeight(s.taps) + FeedersWeight(c.N(), s.feeders)
  }

  /** Worker, broker and tap steps of normal operation: no stop, no crash, no new tap. */
  predicate Drains(step: Step) {
    match step
    case AtWorker(_, a) => !a.StopNack? && !a.Crash?
    case AtTap(_, a) => !a.StartTap? && !a.TapCloses?
    case _ => false
  }

  /** The same, and the rest of any seeding or replay that has done its reading, however it ends. */
  predicate Settles(step: Step) {
    Drains(step) || (step.AtFeeder? && !step.feed.Seed? && !step.feed.OpenReplay? && !step.feed.ReadRow?)
  }

  // ---------------------------------------------------------------- sums

  lemma {:induction false} ReadyWeightAppend(n: nat, a: seq<Message>, b: seq<Message>)
    ensures ReadyWeight(n, a + b) == ReadyWeight(n, a) + ReadyWeight(n, b)
  {
    if b == [] {
      assert a + b == a;
    } else {
      var k := |b| - 1;
      assert (a + b)[..|a + b| - 1] == a + b[..k];
      ReadyWeightAppend(n, a, b[..k]);
    }
  }

  lemma ReadyWeightOne(n: nat, m: Message)
    ensures ReadyWeight(n, [m]) == Weight(n, m.pos)
  {
    assert [m][..0] == [];
  }

  lemma ReadyWeightWithout(n: nat, ready: seq<Message>, i: nat)
    requires i < |ready|
    ensures ReadyWeight(n, Without(ready, i)) == ReadyWeight(n, ready) - Weight(n, ready[i].pos)
  {
    assert ready == ready[..i] + ([ready[i]] + ready[i + 1..]);
    ReadyWeightAppend(n, ready[..i], [ready[i]] + ready[i + 1..]);
    ReadyWeightAppend(n, [ready[i]], ready[i + 1..]);
    ReadyWeightAppend(n, ready[..i], ready[i + 1..]);
    ReadyWeightOne(n, ready[i]);
  }

  lemma {:induction false} WorkersWeightUpdate(c: Config, workers: seq<Worker>, w: nat, worker: Worker)
    requires w < |workers| <= |c.slots|
    ensures WorkersWeight(c, workers[w := worker])
            == WorkersWeight(c, workers) - WorkerWeight(c.N(), c.slots[w].stage, workers[w])
               + WorkerWeight(c.N(), c.slots[w].stage, worker)
  {
    var last := |workers| - 1;
    if w < last {
      assert workers[w := worker][..last] == workers[..last][w := worker];
      WorkersWeightUpdate(c, workers[..last], w, worker);
    } else {
      assert workers[w := worker][..last] == workers[..last];
    }
  }

  lemma {:induction false} TapsWeightUpdate(taps: seq<Tap>, t: nat, tap: Tap)
    requires t < |taps|
    ensures TapsWeight(taps[t := tap]) == TapsWeight(taps) - TapWeight(taps[t]) + TapWeight(tap)
  {
    var last := |taps| - 1;
    if t < last {
      assert taps[t := tap][..last] == taps[..last][t := tap];
      TapsWeightUpdate(taps[..last], t, tap);
    } else {
      assert taps[t := tap][..last] == taps[..last];
    }
  }

  lemma {:induction false} FeedersWeightUpdate(n: nat, feeders: seq<Feeder>, f: nat, feeder: Feeder)
    requires f < |feeders|
    ensures FeedersWeight(n, feeders[f := feeder]) == FeedersWeight(n, feeders) - FeederWeight(n, feeders[f]) + FeederWeight(n, feeder)
  {
    var last := |feeders| - 1;
    if f < last {
      assert feeders[f := feeder][..last] == feeders[..last][f := feeder];
      FeedersWeightUpdate(n, feeders[..last], f, feeder);
    } else {
      assert feeders[f := feeder][..last] == feeders[..last];
    }
  }

  lemma LabelsWithout(n: nat, items: seq<Item>, i: nat)
    requires i < |items|
    ensures ReadyWeight(n, Labels(Without(items, i))) == ReadyWeight(n, Labels(items)) - Weight(n, items[i].pos)
  {
    hide ReadyWeight;
    assert Labels(Without(items, i)) == Without(Labels(items), i);
    ReadyWeightWithout(n, Labels(items), i);
  }

  lemma LabelsAppend(n: nat, items: seq<Item>, item: Item)
    ensures ReadyWeight(n, Labels(items + [item])) == ReadyWeight(n, Labels(items)) + Weight(n, item.pos)
  {
    hide ReadyWeight;
    assert Labels(items + [item]) == Labels(items) + [Message("", item.pos, item.job)];
    ReadyWeightAppend(n, Labels(items), [Message("", item.pos, item.job)]);
    ReadyWeightOne(n, Message("", item.pos, item.job));
  }

  lemma {:induction false} TapsWeightNatural(c: Config, declared: set<string>, taps: seq<Tap>)
    requires c.Valid() && forall t :: 0 <= t < |taps| ==> TapOk(c, declared, taps[t])
    ensures TapsWeight(taps) >= 0
  {
    if taps != [] {
      TapsWeightNatural(c, declared, taps[..|taps| - 1]);
      assert TapOk(c, declared, taps[|taps| - 1]);
    }
  }

  lemma MeasureNatural(c: Config, s: World)
    requires c.Valid() && RoutingInv(c, s)
    ensures Measure(c, s) >= 0
  {
    TapsWeightNatural(c, s.declared, s.taps);
  }

  // ---------------------------------------------------------------- strict descent

  lemma DeliveryDrains(c: Config, s: World, w: nat, i: nat)
    requires c.Valid() && RoutingInv(c, s) && WorkerCan(c, s, w, Deliver(i))
    ensures Measure(c, WorkerDoes(c, s, w, Deliver(i))) < Measure(c, s)
  {
    hide RowsOk, TapOk, FeederOk, c.Valid, WorkersWeight, ReadyWeight, TapsWeight, FeedersWeight, WorkerOk, MessageOk;
    DeliveredAtItsStage(c, s.declared, w, s.ready[i]);
    ReadyWeightWithout(c.N(), s.ready, i);
    WorkersWeightUpdate(c, s.workers, w, WorkerDoes(c, s, w, Deliver(i)).workers[w]);
  }

  lemma BrokerDrains(c: Config, s: World, w: nat)
    requires c.Valid() && RoutingInv(c, s) && WorkerCan(c, s, w, BrokerHandles)
    ensures Measure(c, WorkerDoes(c, s, w, BrokerHandles)) < Measure(c, s)
  {
    hide RowsOk, TapOk, FeederOk, c.Valid, WorkersWeight, ReadyWeight, TapsWeight, FeedersWeight, MessageOk;
    var me := s.workers[w];
    var s' := WorkerDoes(c, s, w, BrokerHandles);
    assert WorkerOk(c, s.declared, c.slots[w].stage, me);
    WorkersWeightUpdate(c, s.workers, w, s'.workers[w]);
    match me.frames[0]
    case Publish(m) =>
      ReadyWeightAppend(c.N(), s.ready, [m]);
      ReadyWeightOne(c.N(), m);
    case Nack =>
      ReadyWeightAppend(c.N(), s.ready, [me.unacked.value]);
      ReadyWeightOne(c.N(), me.unacked.value);
    case Ack =>
  }

  predicate Sends(a: WorkerAction) {
    a.StopNack? || a.SendPublish? || a.SendAck?
  }

  lemma SendingDrains(c: Config, s: World, w: nat, a: WorkerAction)
    requires c.Valid() && RoutingInv(c, s) && WorkerCan(c, s, w, a) && Drains(AtWorker(w, a)) && Sends(a)
    ensures WorkerWeight(c.N(), c.slots[w].stage, WorkerDoes(c, s, w, a).workers[w])
            < WorkerWeight(c.N(), c.slots[w].stage, s.workers[w])
    ensures WorkerDoes(c, s, w, a).ready == s.ready
  {
    hide RowsOk, TapOk, FeederOk, c.Valid, MessageOk, Weight, Upsert, ActiveHold, LedgerSize, Subscribed;
    assert WorkerOk(c, s.declared, c.slots[w].stage, s.workers[w]);
  }

  lemma LocalWorkDrains(c: Config, s: World, w: nat, a: WorkerAction)
    requires c.Valid() && RoutingInv(c, s) && WorkerCan(c, s, w, a) && Drains(AtWorker(w, a))
    requires !a.Deliver? && !a.BrokerHandles? && !Sends(a)
    ensures WorkerWeight(c.N(), c.slots[w].stage, WorkerDoes(c, s, w, a).workers[w])
            < WorkerWeight(c.N(), c.slots[w].stage, s.workers[w])
    ensures WorkerDoes(c, s, w, a).ready == s.ready
  {
    hide RowsOk, TapOk, FeederOk, c.Valid, MessageOk, Weight, Upsert, ActiveHold, LedgerSize, Subscribed;
    assert WorkerOk(c, s.declared, c.slots[w].stage, s.workers[w]);
  }

  lemma WorkerDrains(c: Config, s: World, w: nat, a: WorkerAction)
    requires c.Valid() && RoutingInv(c, s) && WorkerCan(c, s, w, a) && Drains(AtWorker(w, a))
    ensures |WorkerDoes(c, s, w, a).workers| == |c.slots|
    ensures Measure(c, WorkerDoes(c, s, w, a)) < Measure(c, s)
  {
    hide WorkerDoes, RowsOk, TapOk, FeederOk, WorkerOk, MessageOk, c.Valid, WorkerWeight, WorkersWeight, ReadyWeight, TapsWeight, FeedersWeight;
    WorkerFrame(c, s, w, a);
    if a.Deliver? {
      DeliveryDrains(c, s, w, a.i);
    } else if a.BrokerHandles? {
      BrokerDrains(c, s, w);
    } else {
      if Sends(a) {
        SendingDrains(c, s, w, a);
      } else {
        LocalWorkDrains(c, s, w, a);
      }
      WorkersWeightUpdate(c, s.workers, w, WorkerDoes(c, s, w, a).workers[w]);
    }
  }

  lemma TapStepWeighs(c: Config, s: World, t: nat, a: TapAction)
    requires c.Valid() && RoutingInv(c, s) && TapCan(c, s, t, a) && Drains(AtTap(t, a))
    ensures var s' := TapDoes(c, s, t, a);
            ReadyWeight(c.N(), s'.ready) + TapWeight(s'.taps[t]) < ReadyWeight(c.N(), s.ready) + TapWeight(s.taps[t])
  {
    hide RowsOk, WorkerOk, FeederOk, MessageOk, ReadyWeight, Upsert, TerminalIds, ExpectedCount, c.Valid;
    assert TapOk(c, s.declared, s.taps[t]);
    if a.TapReceives? {
      WatchedIsFinal(c, s.declared, s.taps[t], s.ready[a.i]);
      ReadyWeightWithout(c.N(), s.ready, a.i);
    }
  }

  lemma TapDrains(c: Config, s: World, t: nat, a: TapAction)
    requires c.Valid() && RoutingInv(c, s) && TapCan(c, s, t, a) && Drains(AtTap(t, a))
    ensures TapDoes(c, s, t, a).workers == s.workers
    ensures Measure(c, TapDoes(c, s, t, a)) < Measure(c, s)
  {
    hide TapDoes, RoutingInv, c.Valid, TapWeight, TapsWeight, ReadyWeight, WorkersWeight, FeedersWeight;
    TapFrame(c, s, t, a);
    TapStepWeighs(c, s, t, a);
    TapsWeightUpdate(s.taps, t, TapDoes(c, s, t, a).taps[t]);
    assert |s.workers| == |c.slots| by { SlotCount(c, s); }
  }

  lemma FeederStepWeighs(c: Config, s: World, f: nat, a: FeedAction)
    requires FeedCan(c, s, f, a) && Settles(AtFeeder(f, a))
    ensures var s' := FeedDoes(c, s, f, a);
            ReadyWeight(c.N(), s'.ready) + FeederWeight(c.N(), s'.feeders[f]) < ReadyWeight(c.N(), s.ready) + FeederWeight(c.N(), s.feeders[f])
  {
    hide ReadyWeight, Weight, Upsert, Labels;
    var me := s.feeders[f];
    if a.MarkNext? {
      LabelsWithout(c.N(), me.todo, 0);
      assert Without(me.todo, 0) == me.todo[1..];
      LabelsAppend(c.N(), me.marked, me.todo[0]);
    } else if a.PublishMarked? {
      LabelsWithout(c.N(), me.marked, a.i);
      var item := me.marked[a.i];
      var m := Message(c.manifest.StageInputQueue(c.Name(item.pos), item.job.partitionKey).value, item.pos, item.job);
      ReadyWeightAppend(c.N(), s.ready, [m]);
      ReadyWeightOne(c.N(), m);
    } else if a.CloseReplayRead? {
      NoLabels(c.N());
    }
  }

  lemma NoLabels(n: nat)
    ensures ReadyWeight(n, Labels([])) == 0
  {
  }

  lemma FeederDrains(c: Config, s: World, f: nat, a: FeedAction)
    requires |s.workers| == |c.slots| && FeedCan(c, s, f, a) && Settles(AtFeeder(f, a))
    ensures FeedDoes(c, s, f, a).workers == s.workers
    ensures Measure(c, FeedDoes(c, s, f, a)) < Measure(c, s)
  {
    hide FeedDoes, FeederWeight, FeedersWeight, TapsWeight, ReadyWeight, WorkersWeight;
    FeederFrame(c, s, f, a);
    FeederStepWeighs(c, s, f, a);
    FeedersWeightUpdate(c.N(), s.feeders, f, FeedDoes(c, s, f, a).feeders[f]);
  }

  lemma SlotCount(c: Config, s: World)
    requires c.Valid() && RoutingInv(c, s)
    ensures |s.workers| == |c.slots|
  {
  }

  /** Every step of normal operation strictly lowers the measure; operators do not touch it. */
  lemma StepDrains(c: Config, s: World, step: Step)
    requires c.Valid() && RoutingInv(c, s) && Enabled(c, s, step)
    requires Settles(step) || step.AtOperator?
    ensures |Apply(c, s, step).workers| == |s.workers| == |c.slots|
    ensures if Settles(step) then Measure(c, Apply(c, s, step)) < Measure(c, s) else Measure(c, Apply(c, s, step)) == Measure(c, s)
  {
    hide WorkerDoes, TapDoes, FeedDoes, RoutingInv, c.Valid, Measure;
    SlotCount(c, s);
    match step
    case AtWorker(w, a) => WorkerDrains(c, s, w, a);
    case AtTap(t, a) => TapDrains(c, s, t, a);
    case AtFeeder(f, a) => FeederDrains(c, s, f, a);
    case AtOperator(a) => OperatorKeepsMeasure(c, s, a);
  }

  lemma OperatorKeepsMeasure(c: Config, s: World, a: OperatorAction)
    requires |s.workers| == |c.slots|
    ensures OperatorDoes(c, s, a).workers == s.workers
    ensures Measure(c, OperatorDoes(c, s, a)) == Measure(c, s)
  {
    hide ReadyWeight, WorkersWeight, TapsWeight, FeedersWeight;
    OperatorFrame(c, s, a);
  }

  function DrainSteps(steps: seq<Step>): nat {
    if steps == [] then 0 else DrainSteps(steps[..|steps| - 1]) + if Settles(steps[|steps| - 1]) then 1 else 0
  }

  // ---------------------------------------------------------------- quiescence

  /** Nothing of normal operation is left to do. */
  ghost predicate Quiet(c: Config, s: World) {
    forall step :: Drains(step) ==> !Enabled(c, s, step)
  }

  /** Each waiting message has a consumer for its queue. */
  ghost predicate Served(c: Config, s: World) {
    forall m :: m in s.ready ==>
      || (m.pos < c.N() && exists w :: 0 <= w < |c.slots| && Subscribed(c, w, m.queue))
      || (exists t :: 0 <= t < |s.taps| && !s.taps[t].phase.Off? && Watched(c, s.taps[t], m.queue))
  }

  /** What a busy connection can do next. */
  function NextWork(c: Config, w: nat, worker: Worker): WorkerAction
    requires w < |c.slots|
  {
    match worker.phase
    case Idle => BrokerHandles
    case Received(_) => CheckHold
    case HoldFound(_, _) => WriteHeld
    case Clear(_) => WriteRunning
    case MarkedRunning(_) => AppendStarted
    case Started(job) => HandlerReturns(job.(stepIndex := c.slots[w].stage + 1))
    case HandlerReturned(_) => AppendOutput
    case HandlerRaised(_, _) => CountAttempts
    case Counted(_, _, _) => AddAttempt
    case Inserted(_, _, _, _) => RecordFailure
    case OutputLogged(_) => SendPublish
    case Sent(_) => WriteCompleted
    case Recorded => SendAck
  }

  /** No worker is ever stuck: a connection holding a message always has a next step. */
  lemma BusyWorkerCanMove(c: Config, s: World, w: nat)
    requires c.Valid() && RoutingInv(c, s) && w < |s.workers| && s.workers[w] != IDLE_WORKER
    ensures Drains(AtWorker(w, NextWork(c, w, s.workers[w])))
    ensures WorkerCan(c, s, w, NextWork(c, w, s.workers[w]))
  {
    hide RowsOk, TapOk, FeederOk, MessageOk, c.Valid, Subscribed;
    var me := s.workers[w];
    assert WorkerOk(c, s.declared, c.slots[w].stage, me);
    if me.phase.OutputLogged? {
      OutgoingOk(c, s.declared, c.slots[w].stage, me.unacked.value, me.phase.job);
    }
  }

  function NextTapWork(tap: Tap): TapAction {
    match tap.phase
    case WritingRows(_) => WriteTerminalRow
    case AppendingEvents(_) => AppendTerminalEvent
    case Acking(i) => if i < |tap.held| then AckHeld else EndFlush
    case Opening => CheckStart
    case _ => BeginFlush
  }

  lemma BusyTapCanMove(c: Config, s: World, t: nat)
    requires c.Valid() && RoutingInv(c, s) && t < |s.taps| && (s.taps[t].held != [] || s.taps[t].phase.Opening?)
    ensures Drains(AtTap(t, NextTapWork(s.taps[t])))
    ensures TapCan(c, s, t, NextTapWork(s.taps[t]))
  {
    assert TapOk(c, s.declared, s.taps[t]);
  }

  lemma QuietMeansIdle(c: Config, s: World)
    requires c.Valid() && RoutingInv(c, s) && Quiet(c, s)
    ensures forall w :: 0 <= w < |s.workers| ==> s.workers[w] == IDLE_WORKER
    ensures forall t :: 0 <= t < |s.taps| ==> s.taps[t].held == [] && (s.taps[t].phase.Off? || s.taps[t].phase.Collecting?)
  {
    hide RoutingInv, c.Valid, WorkerCan, TapCan;
    forall w | 0 <= w < |s.workers| ensures s.workers[w] == IDLE_WORKER {
      if s.workers[w] != IDLE_WORKER {
        SlotCount(c, s);
        BusyWorkerCanMove(c, s, w);
        QuietForbids(c, s, AtWorker(w, NextWork(c, w, s.workers[w])));
        assert false;
      }
    }
    forall t | 0 <= t < |s.taps| ensures s.taps[t].held == [] && (s.taps[t].phase.Off? || s.taps[t].phase.Collecting?) {
      if s.taps[t].held != [] || s.taps[t].phase.Opening? {
        BusyTapCanMove(c, s, t);
        QuietForbids(c, s, AtTap(t, NextTapWork(s.taps[t])));
        assert false;
      } else {
        IdleTapPhase(c, s, t);
      }
    }
  }

  lemma QuietForbids(c: Config, s: World, step: Step)
    requires Quiet(c, s) && Drains(step)
    ensures !Enabled(c, s, step)
  {
  }

  lemma IdleTapPhase(c: Config, s: World, t: nat)
    requires c.Valid() && RoutingInv(c, s) && t < |s.taps| && s.taps[t].held == [] && !s.taps[t].phase.Opening?
    ensures s.taps[t].phase.Off? || s.taps[t].phase.Collecting?
  {
    assert TapOk(c, s.declared, s.taps[t]);
  }

  lemma QuietMeansEmpty(c: Config, s: World)
    requires c.Valid() && RoutingInv(c, s) && Quiet(c, s) && Served(c, s)
    ensures s.ready == []
  {
    hide RoutingInv, c.Valid, Subscribed, Watched;
    QuietMeansIdle(c, s);
    SlotCount(c, s);
    if s.ready != [] {
      var m := s.ready[0];
      if w :| 0 <= w < |c.slots| && m.pos < c.N() && Subscribed(c, w, m.queue) {
        StageInRange(c, w);
        QuietForbids(c, s, AtWorker(w, Deliver(0)));
        assert false;
      } else {
        var t :| 0 <= t < |s.taps| && !s.taps[t].phase.Off? && Watched(c, s.taps[t], m.queue);
        QuietForbids(c, s, AtTap(t, TapReceives(0)));
        assert false;
      }
    }
  }

  lemma StageInRange(c: Config, w: nat)
    requires c.Valid() && w < |c.slots|
    ensures c.slots[w].stage < c.N()
  {
  }

  /** When a served run has gone quiet, every job that was fed is parked at its frontier or recorded as terminal. */
  lemma QuietIsSettled(c: Config, s: World, jobId: string, ok: set<Status>)
    requires c.Valid() && RoutingInv(c, s) && StandsBy(c, s, jobId, ok) && Quiet(c, s) && Served(c, s)
    ensures RowIn(c, s.db.rows, jobId, s.Frontier(jobId), ok) || (s.Frontier(jobId) == c.N() && jobId in TerminalJobs(c, s))
  {
    hide RoutingInv, c.Valid, RowIn, TerminalJobs, Quiet, Served;
    QuietMeansIdle(c, s);
    QuietMeansEmpty(c, s);
  }
}
