/** Append before forward: a job is nowhere past a stage whose output event is not logged. */
module AppendOrder {
  import opened Common
  import opened Jobs
  import opened Documents
  import opened Protocol
  import opened Routing

  predicate Done(c: Config, events: seq<Event>, jobId: string, k: nat) {
    Logged(events, c.Run(), jobId, c.Name(k), StageOutput)
  }

  predicate Begun(c: Config, events: seq<Event>, jobId: string, k: nat) {
    Logged(events, c.Run(), jobId, c.Name(k), StageStarted)
  }

  /** The outputs of all stages before position k are logged. */
  ghost predicate Prior(c: Config, events: seq<Event>, jobId: string, k: nat) {
    forall i: nat :: i < k ==> Done(c, events, jobId, i)
  }

  ghost predicate WorkerPrior(c: Config, events: seq<Event>, stage: nat, worker: Worker) {
    worker.unacked.Some? ==>
      var id := worker.unacked.value.job.jobId;
      && Prior(c, events, id, stage)
      && (worker.phase.Started? || worker.phase.HandlerReturned? || worker.phase.HandlerRaised? ==> Begun(c, events, id, stage))
      && (worker.phase.OutputLogged? ==> Prior(c, events, id, stage + 1))
      && (worker.frames != [] && worker.frames[0].Publish? ==> Prior(c, events, id, stage + 1))
  }

  ghost predicate ItemsPrior(c: Config, events: seq<Event>, items: seq<Item>) {
    forall i :: 0 <= i < |items| ==> Prior(c, events, items[i].job.jobId, items[i].pos)
  }

  ghost predicate FeederPrior(c: Config, events: seq<Event>, feeder: Feeder) {
    match feeder
    case Resting => true
    case Reading(todo) => ItemsPrior(c, events, todo)
    case Feeding(_, _, todo, marked) => ItemsPrior(c, events, todo) && ItemsPrior(c, events, marked)
  }

  /** Where an event stands: its stage's predecessors are done, and a stage ends only after it began. */
  ghost predicate EventAt(c: Config, events: seq<Event>, e: Event, k: nat) {
    && k <= c.N() && e.runId == c.Run() && e.stage == c.Name(k)
    && (e.kind.TerminalEvent? <==> k == c.N())
    && Prior(c, events, e.jobId, k)
    && (e.kind.StageOutput? ==> Begun(c, events, e.jobId, k))
  }

  ghost predicate Placed(c: Config, events: seq<Event>, e: Event) {
    exists k: nat :: EventAt(c, events, e, k)
  }

  ghost predicate EventsPrior(c: Config, events: seq<Event>) {
    forall i :: 0 <= i < |events| ==> Placed(c, events, events[i])
  }

  ghost predicate RowsPrior(c: Config, events: seq<Event>, rows: Rows) {
    forall j, k: nat {:trigger c.Key(j, k)} :: k <= c.N() && c.Key(j, k) in rows ==> Prior(c, events, j, k)
  }

  ghost predicate MessagesPrior(c: Config, events: seq<Event>, messages: seq<Message>) {
    forall m :: m in messages ==> Prior(c, events, m.job.jobId, m.pos)
  }

  ghost predicate AppendInv(c: Config, s: World) {
    && MessagesPrior(c, s.db.events, s.ready)
    && |s.workers| == |c.slots|
    && (forall w :: 0 <= w < |s.workers| ==> WorkerPrior(c, s.db.events, c.slots[w].stage, s.workers[w]))
    && (forall t :: 0 <= t < |s.taps| ==> MessagesPrior(c, s.db.events, s.taps[t].held))
    && (forall f :: 0 <= f < |s.feeders| ==> FeederPrior(c, s.db.events, s.feeders[f]))
    && RowsPrior(c, s.db.events, s.db.rows)
    && EventsPrior(c, s.db.events)
  }

  // ---------------------------------------------------------------- a growing log

  lemma LoggedGrows(events: seq<Event>, e: Event, runId: string, jobId: string, stage: string, kind: EventKind)
    ensures Logged(events, runId, jobId, stage, kind) ==> Logged(events + [e], runId, jobId, stage, kind)
    ensures e.runId == runId && e.jobId == jobId && e.stage == stage && e.kind == kind ==>
              Logged(events + [e], runId, jobId, stage, kind)
  {
    var more := events + [e];
    if Logged(events, runId, jobId, stage, kind) {
      var i :| 0 <= i < |events| && events[i].runId == runId && events[i].jobId == jobId
        && events[i].stage == stage && events[i].kind == kind;
      assert more[i] == events[i];
    }
    assert more[|events|] == e;
  }

  lemma PriorGrows(c: Config, events: seq<Event>, e: Event)
    ensures forall j, k: nat {:trigger Prior(c, events + [e], j, k)} :: Prior(c, events, j, k) ==> Prior(c, events + [e], j, k)
    ensures forall j, k: nat {:trigger Begun(c, events + [e], j, k)} :: Begun(c, events, j, k) ==> Begun(c, events + [e], j, k)
  {
    forall j, k: nat | Prior(c, events, j, k) ensures Prior(c, events + [e], j, k) {
      forall i: nat | i < k ensures Done(c, events + [e], j, i) {
        assert Done(c, events, j, i);
        LoggedGrows(events, e, c.Run(), j, c.Name(i), StageOutput);
      }
    }
    forall j, k: nat | Begun(c, events, j, k) ensures Begun(c, events + [e], j, k) {
      LoggedGrows(events, e, c.Run(), j, c.Name(k), StageStarted);
    }
  }

  lemma PriorExtends(c: Config, events: seq<Event>, e: Event, jobId: string, k: nat)
    requires Prior(c, events, jobId, k)
    requires e.runId == c.Run() && e.jobId == jobId && e.stage == c.Name(k) && e.kind == StageOutput
    ensures Prior(c, events + [e], jobId, k + 1)
  {
    forall i: nat | i < k + 1 ensures Done(c, events + [e], jobId, i) {
      assert i < k ==> Done(c, events, jobId, i);
      LoggedGrows(events, e, c.Run(), jobId, c.Name(i), StageOutput);
    }
  }

  lemma ItemsGrow(c: Config, events: seq<Event>, e: Event, items: seq<Item>)
    requires ItemsPrior(c, events, items)
    ensures ItemsPrior(c, events + [e], items)
  {
    hide Prior;
    PriorGrows(c, events, e);
  }

  lemma FeederGrows(c: Config, events: seq<Event>, e: Event, feeder: Feeder)
    requires FeederPrior(c, events, feeder)
    ensures FeederPrior(c, events + [e], feeder)
  {
    hide ItemsPrior;
    match feeder
    case Resting =>
    case Reading(todo) => ItemsGrow(c, events, e, todo);
    case Feeding(_, _, todo, marked) =>
      ItemsGrow(c, events, e, todo);
      ItemsGrow(c, events, e, marked);
  }

  lemma EventGrows(c: Config, events: seq<Event>, e: Event, x: Event, k: nat)
    requires EventAt(c, events, x, k)
    ensures EventAt(c, events + [e], x, k)
  {
    hide Prior, Begun;
    PriorGrows(c, events, e);
  }

  lemma EventsGrow(c: Config, events: seq<Event>, e: Event, k: nat)
    requires EventsPrior(c, events)
    requires EventAt(c, events, e, k)
    ensures EventsPrior(c, events + [e])
  {
    hide EventAt;
    var more := events + [e];
    forall i | 0 <= i < |more| ensures Placed(c, more, more[i]) {
      assert Placed(c, events, more[i]);
      var l: nat :| EventAt(c, events, more[i], l);
      EventGrows(c, events, e, more[i], l);
    }
  }

  /** Appending a well-placed event keeps everything that was already placed. */
  lemma LogGrows(c: Config, s: World, e: Event, k: nat)
    requires AppendInv(c, s) && EventAt(c, s.db.events, e, k)
    ensures AppendInv(c, s.(db := Append(s.db, e)))
  {
    hide Prior, Begun, EventsPrior, FeederPrior;
    PriorGrows(c, s.db.events, e);
    EventsGrow(c, s.db.events, e, k);
    forall f | 0 <= f < |s.feeders| ensures FeederPrior(c, s.db.events + [e], s.feeders[f]) {
      FeederGrows(c, s.db.events, e, s.feeders[f]);
    }
    forall w | 0 <= w < |s.workers| ensures WorkerPrior(c, s.db.events + [e], c.slots[w].stage, s.workers[w]) {
      assert WorkerPrior(c, s.db.events, c.slots[w].stage, s.workers[w]);
    }
  }

  // ---------------------------------------------------------------- preservation

  lemma WorkerAppends(c: Config, s: World, w: nat, a: WorkerAction)
    requires c.Valid() && RoutingInv(c, s) && AppendInv(c, s) && WorkerCan(c, s, w, a)
    requires a.AppendStarted? || a.AppendOutput?
    ensures AppendInv(c, WorkerDoes(c, s, w, a))
  {
    hide c.Valid, RowsOk, TapOk, FeederOk, MessageOk, Begun, Prior, EventsPrior, FeederPrior, RowsPrior, MessagesPrior;
    var me := s.workers[w];
    var k := c.slots[w].stage;
    var id := me.unacked.value.job.jobId;
    assert WorkerOk(c, s.declared, k, me) && WorkerPrior(c, s.db.events, k, me);
    var e := if a.AppendStarted? then StartedEvent(me.phase.job, c.Name(k)) else OutputEvent(me.phase.job, c.Name(k));
    assert e.runId == c.Run() by {
      HeldJob(c, s, w);
    }
    assert EventAt(c, s.db.events, e, k);
    LogGrows(c, s, e, k);
    PriorGrows(c, s.db.events, e);
    if a.AppendOutput? {
      PriorExtends(c, s.db.events, e, id, k);
    } else {
      BegunNow(c, s.db.events, e, id, k);
    }
  }

  lemma BegunNow(c: Config, events: seq<Event>, e: Event, jobId: string, k: nat)
    requires e.runId == c.Run() && e.jobId == jobId && e.stage == c.Name(k) && e.kind == StageStarted
    ensures Begun(c, events + [e], jobId, k)
  {
    LoggedGrows(events, e, c.Run(), jobId, c.Name(k), StageStarted);
  }

  lemma WorkerKeepsRowsPrior(c: Config, s: World, w: nat, a: WorkerAction)
    requires c.Valid() && RoutingInv(c, s) && AppendInv(c, s) && WorkerCan(c, s, w, a)
    requires !a.AppendStarted? && !a.AppendOutput?
    ensures RowsPrior(c, s.db.events, WorkerDoes(c, s, w, a).db.rows)
  {
    hide WorkerDoes, RoutingInv, Begun, Prior, EventsPrior, FeederPrior, MessagesPrior, RowsPrior;
    var me := s.workers[w];
    var k := c.slots[w].stage;
    assert WorkerPrior(c, s.db.events, k, me);
    if !WritesRow(a) {
      WorkerLeavesRows(c, s, w, a);
    } else {
      WorkerWritesRow(c, s, w, a);
      HeldJob(c, s, w);
      RowWritten(c, s.db.events, s.db.rows, WorkerDoes(c, s, w, a).db.rows, me.phase.job.jobId, k);
    }
  }

  lemma RowWritten(c: Config, events: seq<Event>, before: Rows, after: Rows, jobId: string, k: nat)
    requires c.Valid() && k <= c.N() && RowsPrior(c, events, before)
    requires c.Key(jobId, k) in after && after == before[c.Key(jobId, k) := after[c.Key(jobId, k)]]
    requires Prior(c, events, jobId, k)
    ensures RowsPrior(c, events, after)
  {
    hide Prior;
    forall j, l: nat {:trigger c.Key(j, l)} | l <= c.N() && c.Key(j, l) in after ensures Prior(c, events, j, l) {
      if c.Key(j, l) == c.Key(jobId, k) {
        KeysDistinct(c, j, l, jobId, k);
      }
    }
  }

  lemma WorkerMovesLocally(c: Config, s: World, w: nat, a: WorkerAction)
    requires c.Valid() && RoutingInv(c, s) && AppendInv(c, s) && WorkerCan(c, s, w, a)
    requires !a.AppendStarted? && !a.AppendOutput? && !OnChannel(a)
    ensures var s' := WorkerDoes(c, s, w, a);
            && s'.db.events == s.db.events && s'.ready == s.ready
            && WorkerPrior(c, s.db.events, c.slots[w].stage, s'.workers[w])
  {
    hide c.Valid, RowsOk, TapOk, FeederOk, MessageOk, Begun, Prior, EventsPrior, FeederPrior, RowsPrior, MessagesPrior,
      ActiveHold, LedgerSize, Upsert;
    var me := s.workers[w];
    assert WorkerOk(c, s.declared, c.slots[w].stage, me) && WorkerPrior(c, s.db.events, c.slots[w].stage, me);
  }

  lemma WorkerMovesOnChannel(c: Config, s: World, w: nat, a: WorkerAction)
    requires c.Valid() && RoutingInv(c, s) && AppendInv(c, s) && WorkerCan(c, s, w, a) && OnChannel(a)
    ensures WorkerDoes(c, s, w, a).db == s.db
    ensures WorkerPrior(c, s.db.events, c.slots[w].stage, WorkerDoes(c, s, w, a).workers[w])
  {
    hide RowsOk, TapOk, FeederOk, MessageOk, c.Valid, Begun, Prior, EventsPrior, FeederPrior, RowsPrior, Subscribed;
    var me := s.workers[w];
    assert WorkerPrior(c, s.db.events, c.slots[w].stage, me);
    if a.Deliver? {
      DeliveryIsPrior(c, s, w, a);
    } else {
      assert WorkerOk(c, s.declared, c.slots[w].stage, me);
    }
  }

  lemma DeliveryIsPrior(c: Config, s: World, w: nat, a: WorkerAction)
    requires c.Valid() && RoutingInv(c, s) && AppendInv(c, s) && WorkerCan(c, s, w, a) && a.Deliver?
    ensures WorkerPrior(c, s.db.events, c.slots[w].stage, WorkerDoes(c, s, w, a).workers[w])
  {
    hide RowsOk, TapOk, FeederOk, WorkerOk, MessageOk, c.Valid, Begun, Prior, EventsPrior, FeederPrior, RowsPrior, Subscribed;
    DeliveredAtItsStage(c, s.declared, w, s.ready[a.i]);
  }

  lemma WorkerMovesMessages(c: Config, s: World, w: nat, a: WorkerAction)
    requires c.Valid() && RoutingInv(c, s) && AppendInv(c, s) && WorkerCan(c, s, w, a)
    ensures MessagesPrior(c, s.db.events, WorkerDoes(c, s, w, a).ready)
  {
    hide RowsOk, TapOk, FeederOk, MessageOk, c.Valid, Begun, Prior, EventsPrior, FeederPrior, RowsPrior, Upsert, ActiveHold, LedgerSize;
    var me := s.workers[w];
    assert WorkerOk(c, s.declared, c.slots[w].stage, me) && WorkerPrior(c, s.db.events, c.slots[w].stage, me);
  }

  lemma WorkerKeepsOrder(c: Config, s: World, w: nat, a: WorkerAction)
    requires c.Valid() && RoutingInv(c, s) && AppendInv(c, s) && WorkerCan(c, s, w, a)
    ensures AppendInv(c, WorkerDoes(c, s, w, a))
  {
    hide WorkerDoes, WorkerOk, MessageOk, TapOk, FeederOk, RowsOk, WorkerPrior, MessagesPrior, RowsPrior, FeederPrior, EventsPrior;
    if a.AppendStarted? || a.AppendOutput? {
      WorkerAppends(c, s, w, a);
    } else {
      WorkerFrame(c, s, w, a);
      WorkerKeepsRowsPrior(c, s, w, a);
      WorkerMovesMessages(c, s, w, a);
      if OnChannel(a) {
        WorkerMovesOnChannel(c, s, w, a);
      } else {
        WorkerMovesLocally(c, s, w, a);
      }
    }
  }

  lemma TapRowPrior(c: Config, s: World, t: nat)
    requires c.Valid() && RoutingInv(c, s) && AppendInv(c, s) && TapCan(c, s, t, WriteTerminalRow)
    ensures RowsPrior(c, s.db.events, TapDoes(c, s, t, WriteTerminalRow).db.rows)
  {
    hide WorkerOk, FeederOk, RowsOk, WorkerPrior, RowsPrior, FeederPrior, EventsPrior, Prior, c.Valid;
    var me := s.taps[t];
    assert TapOk(c, s.declared, me) && MessagesPrior(c, s.db.events, me.held);
    var m := me.held[me.phase.next];
    RowWritten(c, s.db.events, s.db.rows, TapDoes(c, s, t, WriteTerminalRow).db.rows, m.job.jobId, c.N());
  }

  lemma TapLogGrows(c: Config, s: World, t: nat)
    requires c.Valid() && RoutingInv(c, s) && AppendInv(c, s) && TapCan(c, s, t, AppendTerminalEvent)
    ensures AppendInv(c, s.(db := TapDoes(c, s, t, AppendTerminalEvent).db))
  {
    hide WorkerOk, FeederOk, RowsOk, WorkerPrior, RowsPrior, FeederPrior, EventsPrior, Prior, c.Valid;
    var me := s.taps[t];
    assert TapOk(c, s.declared, me) && MessagesPrior(c, s.db.events, me.held);
    LogGrows(c, s, TerminalOf(me.held[me.phase.next].job, c.Name(c.N())), c.N());
  }

  lemma TapMovesPrior(c: Config, s: World, t: nat, a: TapAction)
    requires AppendInv(c, s) && TapCan(c, s, t, a)
    ensures var s' := TapDoes(c, s, t, a);
            && MessagesPrior(c, s.db.events, s'.ready) && MessagesPrior(c, s.db.events, s'.taps[t].held)
            && (a.AppendTerminalEvent? ==> s'.ready == s.ready && s'.taps[t].held == s.taps[t].held)
            && (!a.AppendTerminalEvent? ==> s'.db.events == s.db.events)
            && (!a.WriteTerminalRow? ==> s'.db.rows == s.db.rows)
  {
    hide WorkerPrior, RowsPrior, FeederPrior, EventsPrior, Prior, TerminalIds, ExpectedCount, Upsert, Watched;
    assert MessagesPrior(c, s.db.events, s.taps[t].held);
  }

  lemma TapKeepsOrder(c: Config, s: World, t: nat, a: TapAction)
    requires c.Valid() && RoutingInv(c, s) && AppendInv(c, s) && TapCan(c, s, t, a)
    ensures AppendInv(c, TapDoes(c, s, t, a))
  {
    hide TapDoes, RoutingInv, WorkerPrior, RowsPrior, FeederPrior, EventsPrior, MessagesPrior, c.Valid;
    TapFrame(c, s, t, a);
    TapMovesPrior(c, s, t, a);
    if a.WriteTerminalRow? {
      TapRowPrior(c, s, t);
    } else if a.AppendTerminalEvent? {
      TapLogGrows(c, s, t);
    }
  }

  lemma FeederKeepsOrder(c: Config, s: World, f: nat, a: FeedAction)
    requires c.Valid() && RoutingInv(c, s) && AppendInv(c, s) && FeedCan(c, s, f, a)
    ensures AppendInv(c, FeedDoes(c, s, f, a))
  {
    hide FeedDoes, WorkerOk, FeederOk, RowsOk, TapOk, MessageOk, WorkerPrior, RowsPrior, FeederPrior, EventsPrior, Prior, MessagesPrior;
    FeederFrame(c, s, f, a);
    FeederItemsPrior(c, s, f, a);
    FeederRowsPrior(c, s, f, a);
  }

  lemma FeederItemsPrior(c: Config, s: World, f: nat, a: FeedAction)
    requires c.Valid() && RoutingInv(c, s) && AppendInv(c, s) && FeedCan(c, s, f, a)
    ensures FeederPrior(c, s.db.events, FeedDoes(c, s, f, a).feeders[f])
    ensures MessagesPrior(c, s.db.events, FeedDoes(c, s, f, a).ready)
  {
    hide WorkerOk, RowsOk, TapOk, MessageOk, WorkerPrior, EventsPrior, MarkPending, AddBatch, SetBatchStatus, FeederOk, ActiveIds, JobIds, RowsPrior, c.Valid, Seedable;
    if a.ReadRow? {
      ReadItemsPrior(c, s, f, a);
    } else {
      assert FeederPrior(c, s.db.events, s.feeders[f]);
    }
  }

  lemma ReadItemsPrior(c: Config, s: World, f: nat, a: FeedAction)
    requires c.Valid() && RoutingInv(c, s) && AppendInv(c, s) && FeedCan(c, s, f, a) && a.ReadRow?
    ensures FeederPrior(c, s.db.events, FeedDoes(c, s, f, a).feeders[f])
    ensures FeedDoes(c, s, f, a).ready == s.ready
  {
    hide RoutingInv, WorkerPrior, EventsPrior, MessagesPrior, c.Valid, Prior;
    assert FeederPrior(c, s.db.events, s.feeders[f]);
    ReadRowIsOk(c, s, a.jobId, a.pos);
    assert c.Key(a.jobId, a.pos) in s.db.rows;
  }

  lemma FeederRowsPrior(c: Config, s: World, f: nat, a: FeedAction)
    requires c.Valid() && RoutingInv(c, s) && AppendInv(c, s) && FeedCan(c, s, f, a)
    ensures RowsPrior(c, s.db.events, FeedDoes(c, s, f, a).db.rows)
  {
    hide WorkerOk, RowsOk, TapOk, MessageOk, WorkerPrior, EventsPrior;
    var me := s.feeders[f];
    assert FeederPrior(c, s.db.events, me) && FeederOk(c, s.declared, me);
    if a.MarkNext? {
      var item := me.todo[0];
      RowWritten(c, s.db.events, s.db.rows, FeedDoes(c, s, f, a).db.rows, item.job.jobId, item.pos);
    }
  }

  lemma StepKeepsOrder(c: Config, s: World, step: Step)
    requires c.Valid() && RoutingInv(c, s) && AppendInv(c, s) && Enabled(c, s, step)
    ensures AppendInv(c, Apply(c, s, step))
  {
    hide WorkerDoes, TapDoes, FeedDoes, WorkerOk, MessageOk, TapOk, FeederOk, RowsOk,
      WorkerPrior, MessagesPrior, RowsPrior, FeederPrior, EventsPrior;
    match step
    case AtWorker(w, a) => WorkerKeepsOrder(c, s, w, a);
    case AtTap(t, a) => TapKeepsOrder(c, s, t, a);
    case AtFeeder(f, a) => FeederKeepsOrder(c, s, f, a);
    case AtOperator(a) => OperatorFrame(c, s, a);
  }
}
