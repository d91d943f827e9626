/** Rows, then events, then acknowledgements: what a terminal tap has settled is recorded (pipeline/tap.py). */
module TerminalChain {
  import opened Manifest
  import opened Jobs
  import opened Documents
  import opened Protocol
  import opened Routing
  import opened RowShape

  function TerminalJobs(c: Config, s: World): set<string> {
    TerminalIds(s.db.events, c.Run())
  }

  predicate HasTerminalRow(c: Config, rows: Rows, jobId: string) {
    var key := RowKey(c.Run(), jobId, TERMINAL_STAGE);
    key in rows && rows[key].status == Terminal
  }

  function IdsUpTo(held: seq<Message>, n: nat): set<string>
    requires n <= |held|
  {
    set x | 0 <= x < n :: held[x].job.jobId
  }

  ghost predicate TapChain(c: Config, rows: Rows, recorded: set<string>, tap: Tap) {
    && tap.known <= recorded
    && match tap.phase
       case WritingRows(i) => i <= |tap.held| && forall id :: id in IdsUpTo(tap.held, i) ==> HasTerminalRow(c, rows, id)
       case AppendingEvents(i) =>
         && i <= |tap.held| && IdsUpTo(tap.held, i) <= recorded
         && forall id :: id in IdsUpTo(tap.held, |tap.held|) ==> HasTerminalRow(c, rows, id)
       case Acking(_) => IdsUpTo(tap.held, |tap.held|) <= recorded
       case _ => true
  }

  ghost predicate ChainInv(c: Config, s: World) {
    && s.settled <= TerminalJobs(c, s)
    && (forall id :: id in TerminalJobs(c, s) ==> HasTerminalRow(c, s.db.rows, id))
    && (forall t :: 0 <= t < |s.taps| ==> TapChain(c, s.db.rows, TerminalJobs(c, s), s.taps[t]))
  }

  lemma TerminalIdsGrow(events: seq<Event>, e: Event, runId: string)
    ensures TerminalIds(events + [e], runId)
            == TerminalIds(events, runId) + if e.runId == runId && e.kind == TerminalEvent then {e.jobId} else {}
  {
    var more := events + [e];
    forall id | id in TerminalIds(events, runId) ensures id in TerminalIds(more, runId) {
      var i :| 0 <= i < |events| && events[i].runId == runId && events[i].kind == TerminalEvent && events[i].jobId == id;
      assert more[i] == events[i];
    }
    if e.runId == runId && e.kind == TerminalEvent {
      assert more[|events|] == e;
    }
  }

  lemma AckedIsHeld(held: seq<Message>)
    ensures forall i :: 0 <= i < |held| ==> held[i].job.jobId in IdsUpTo(held, |held|)
  {
  }

  lemma IdsGrow(held: seq<Message>, n: nat)
    requires n < |held|
    ensures IdsUpTo(held, n + 1) == IdsUpTo(held, n) + {held[n].job.jobId}
  {
  }

  lemma WorkerLeavesTerminalRows(c: Config, s: World, w: nat, a: WorkerAction, jobId: string)
    requires c.Valid() && WorkerCan(c, s, w, a)
    requires HasTerminalRow(c, s.db.rows, jobId)
    ensures HasTerminalRow(c, WorkerDoes(c, s, w, a).db.rows, jobId)
  {
    hide ActiveHold, LedgerSize, c.Valid;
    StageIsNotTerminal(c, c.slots[w].stage);
  }

  /** No step but a terminal write touches a terminal row, and that one leaves it TERMINAL. */
  lemma TerminalRowsStay(c: Config, s: World, step: Step, jobId: string)
    requires c.Valid() && RoutingInv(c, s) && Enabled(c, s, step)
    requires HasTerminalRow(c, s.db.rows, jobId)
    ensures HasTerminalRow(c, Apply(c, s, step).db.rows, jobId)
  {
    hide WorkerDoes, TerminalIds, ExpectedCount, ActiveIds, RowsOk, MessageOk, WorkerOk, TapOk, c.Valid;
    match step
    case AtWorker(w, a) => WorkerLeavesTerminalRows(c, s, w, a, jobId);
    case AtFeeder(f, a) =>
      if a.MarkNext? {
        assert FeederOk(c, s.declared, s.feeders[f]);
        StageIsNotTerminal(c, s.feeders[f].todo[0].pos);
      }
    case _ =>
  }

  lemma WorkerRecords(c: Config, s: World, w: nat, a: WorkerAction)
    requires c.Valid() && WorkerCan(c, s, w, a)
    ensures TerminalJobs(c, WorkerDoes(c, s, w, a)) == TerminalJobs(c, s)
  {
    hide TerminalIds, ActiveHold, LedgerSize, Upsert;
    var me := s.workers[w];
    match a
    case AppendStarted => TerminalIdsGrow(s.db.events, StartedEvent(me.phase.job, c.Name(c.slots[w].stage)), c.Run());
    case AppendOutput => TerminalIdsGrow(s.db.events, OutputEvent(me.phase.job, c.Name(c.slots[w].stage)), c.Run());
    case _ =>
  }

  /** Chains survive any change that keeps terminal rows and only adds recorded ids. */
  lemma ChainSurvives(c: Config, rows: Rows, rows': Rows, recorded: set<string>, recorded': set<string>, tap: Tap)
    requires TapChain(c, rows, recorded, tap) && recorded <= recorded'
    requires forall id :: HasTerminalRow(c, rows, id) ==> HasTerminalRow(c, rows', id)
    ensures TapChain(c, rows', recorded', tap)
  {
    hide HasTerminalRow;
  }

  lemma TapRecords(c: Config, s: World, t: nat, a: TapAction)
    requires c.Valid() && RoutingInv(c, s) && TapCan(c, s, t, a)
    ensures TerminalJobs(c, TapDoes(c, s, t, a))
            == TerminalJobs(c, s) + if a.AppendTerminalEvent? then {s.taps[t].held[s.taps[t].phase.next].job.jobId} else {}
  {
    hide TerminalIds, ExpectedCount, RowsOk, WorkerOk, FeederOk, Upsert, c.Valid, Watched;
    if a.AppendTerminalEvent? {
      var m := s.taps[t].held[s.taps[t].phase.next];
      assert TapOk(c, s.declared, s.taps[t]);
      TerminalIdsGrow(s.db.events, TerminalOf(m.job, TERMINAL_STAGE), c.Run());
    }
  }

  lemma TapWritesRow(c: Config, s: World, t: nat)
    requires c.Valid() && RoutingInv(c, s) && TapCan(c, s, t, WriteTerminalRow)
    ensures HasTerminalRow(c, TapDoes(c, s, t, WriteTerminalRow).db.rows, s.taps[t].held[s.taps[t].phase.next].job.jobId)
  {
    hide WorkerOk, FeederOk, RowsOk;
    assert TapOk(c, s.declared, s.taps[t]);
    assert MessageOk(c, s.declared, s.taps[t].held[s.taps[t].phase.next]);
  }

  /** The acting tap's own chain. */
  lemma TapExtendsChain(c: Config, s: World, t: nat, a: TapAction)
    requires c.Valid() && RoutingInv(c, s) && ChainInv(c, s) && TapCan(c, s, t, a)
    ensures var s' := TapDoes(c, s, t, a); TapChain(c, s'.db.rows, TerminalJobs(c, s'), s'.taps[t])
  {
    hide TerminalIds, ExpectedCount, WorkerOk, FeederOk, RowsOk, HasTerminalRow, MarkTerminal, MessageOk, c.Valid, TerminalJobs, IdsUpTo;
    var me := s.taps[t];
    var s' := TapDoes(c, s, t, a);
    assert TapChain(c, s.db.rows, TerminalJobs(c, s), me) && TapOk(c, s.declared, me);
    TapRecords(c, s, t, a);
    forall id | HasTerminalRow(c, s.db.rows, id) ensures HasTerminalRow(c, s'.db.rows, id) {
      TerminalRowsStay(c, s, AtTap(t, a), id);
    }
    ChainSurvives(c, s.db.rows, s'.db.rows, TerminalJobs(c, s), TerminalJobs(c, s'), me);
    NoIds(me.held);
    AckedIsHeld(me.held);
    match a
    case WriteTerminalRow =>
      TapWritesRow(c, s, t);
      IdsGrow(me.held, me.phase.next);
    case AppendTerminalEvent =>
      IdsGrow(me.held, me.phase.next);
    case StartTap(_) =>
      assert s'.taps[t].known == TerminalJobs(c, s) by { StartedKnows(c, s, t, a); }
    case _ =>
  }

  lemma StartedKnows(c: Config, s: World, t: nat, a: TapAction)
    requires TapCan(c, s, t, a) && a.StartTap?
    ensures TapDoes(c, s, t, a).taps[t].known == TerminalJobs(c, s)
  {
  }

  /** A tap acknowledges only what is recorded. */
  lemma TapSettles(c: Config, s: World, t: nat, a: TapAction)
    requires c.Valid() && RoutingInv(c, s) && ChainInv(c, s) && TapCan(c, s, t, a)
    ensures TapDoes(c, s, t, a).settled <= TerminalJobs(c, TapDoes(c, s, t, a))
  {
    hide TerminalIds, ExpectedCount, WorkerOk, FeederOk, RowsOk, HasTerminalRow, MarkTerminal, MessageOk, c.Valid, TerminalJobs;
    var me := s.taps[t];
    assert TapChain(c, s.db.rows, TerminalJobs(c, s), me);
    TapRecords(c, s, t, a);
    if a.AckHeld? {
      assert me.held[me.phase.next].job.jobId in IdsUpTo(me.held, |me.held|);
    }
  }

  lemma TapKeepsChain(c: Config, s: World, t: nat, a: TapAction)
    requires c.Valid() && RoutingInv(c, s) && ChainInv(c, s) && TapCan(c, s, t, a)
    ensures ChainInv(c, TapDoes(c, s, t, a))
  {
    hide TapDoes, HasTerminalRow, TapChain, TerminalJobs, WorkerOk, FeederOk, RowsOk, MessageOk;
    var s' := TapDoes(c, s, t, a);
    TapFrame(c, s, t, a);
    TapRecords(c, s, t, a);
    TapSettles(c, s, t, a);
    TapExtendsChain(c, s, t, a);
    forall id | HasTerminalRow(c, s.db.rows, id) ensures HasTerminalRow(c, s'.db.rows, id) {
      TerminalRowsStay(c, s, AtTap(t, a), id);
    }
    forall u | 0 <= u < |s'.taps| ensures TapChain(c, s'.db.rows, TerminalJobs(c, s'), s'.taps[u]) {
      if u != t {
        ChainSurvives(c, s.db.rows, s'.db.rows, TerminalJobs(c, s), TerminalJobs(c, s'), s.taps[u]);
      }
    }
    if a.AppendTerminalEvent? {
      EventHasRow(c, s, t);
    }
  }

  lemma EventHasRow(c: Config, s: World, t: nat)
    requires ChainInv(c, s) && TapCan(c, s, t, AppendTerminalEvent)
    ensures HasTerminalRow(c, s.db.rows, s.taps[t].held[s.taps[t].phase.next].job.jobId)
  {
    hide HasTerminalRow, TerminalJobs;
    var me := s.taps[t];
    assert TapChain(c, s.db.rows, TerminalJobs(c, s), me);
    assert me.held[me.phase.next].job.jobId in IdsUpTo(me.held, |me.held|);
  }

  lemma StepKeepsChain(c: Config, s: World, step: Step)
    requires c.Valid() && RoutingInv(c, s) && ChainInv(c, s) && Enabled(c, s, step)
    ensures ChainInv(c, Apply(c, s, step))
  {
    hide WorkerDoes, TapDoes, FeedDoes, HasTerminalRow, TapChain, WorkerOk, FeederOk, RowsOk, MessageOk, TerminalIds, c.Valid;
    var s' := Apply(c, s, step);
    forall id | HasTerminalRow(c, s.db.rows, id) ensures HasTerminalRow(c, s'.db.rows, id) {
      TerminalRowsStay(c, s, step, id);
    }
    match step
    case AtTap(t, a) => TapKeepsChain(c, s, t, a);
    case AtWorker(w, a) =>
      WorkerFrame(c, s, w, a);
      WorkerRecords(c, s, w, a);
      ChainsSurvive(c, s, s');
    case AtFeeder(f, a) =>
      FeederFrame(c, s, f, a);
      ChainsSurvive(c, s, s');
    case AtOperator(a) =>
      OperatorFrame(c, s, a);
  }

  lemma ChainsSurvive(c: Config, s: World, s': World)
    requires ChainInv(c, s) && s'.taps == s.taps && s'.settled == s.settled && TerminalJobs(c, s') == TerminalJobs(c, s)
    requires forall id :: HasTerminalRow(c, s.db.rows, id) ==> HasTerminalRow(c, s'.db.rows, id)
    ensures ChainInv(c, s')
  {
    hide HasTerminalRow, TapChain, TerminalJobs;
    forall u | 0 <= u < |s.taps| ensures TapChain(c, s'.db.rows, TerminalJobs(c, s'), s.taps[u]) {
      ChainSurvives(c, s.db.rows, s'.db.rows, TerminalJobs(c, s), TerminalJobs(c, s'), s.taps[u]);
    }
  }

  // ---------------------------------------------------------------- the cached ids of a sole recorder

  /** Between flushes the only tap's cache is the set the log gives; during a flush it lags by the ids just logged. */
  ghost predicate SoleTap(recorded: set<string>, tap: Tap) {
    match tap.phase
    case Off => true
    case Opening => tap.known == recorded
    case Collecting => tap.known == recorded
    case WritingRows(_) => tap.known == recorded
    case AppendingEvents(i) => i <= |tap.held| && recorded == tap.known + IdsUpTo(tap.held, i)
    case Acking(i) =>
      && i <= |tap.held| && recorded == tap.known + IdsUpTo(tap.held, |tap.held|) && IdsUpTo(tap.held, i) <= tap.known
  }

  ghost predicate SoleInv(c: Config, s: World) {
    |s.taps| == 1 && SoleTap(TerminalJobs(c, s), s.taps[0])
  }

  lemma SoleTapAppends(c: Config, s: World)
    requires c.Valid() && RoutingInv(c, s) && SoleInv(c, s) && TapCan(c, s, 0, AppendTerminalEvent)
    ensures SoleInv(c, TapDoes(c, s, 0, AppendTerminalEvent))
  {
    hide TerminalIds, IdsUpTo, WorkerOk, FeederOk, RowsOk, MessageOk, c.Valid, TerminalJobs;
    TapRecords(c, s, 0, AppendTerminalEvent);
    IdsGrow(s.taps[0].held, s.taps[0].phase.next);
    assert IdsUpTo(s.taps[0].held, 0) == {} by { NoIds(s.taps[0].held); }
  }

  lemma NoIds(held: seq<Message>)
    ensures IdsUpTo(held, 0) == {}
  {
  }

  lemma SoleTapAcks(c: Config, s: World)
    requires c.Valid() && RoutingInv(c, s) && SoleInv(c, s) && TapCan(c, s, 0, AckHeld)
    ensures SoleInv(c, TapDoes(c, s, 0, AckHeld))
  {
    hide TerminalIds, WorkerOk, FeederOk, RowsOk, MessageOk, c.Valid, TerminalJobs;
    var me := s.taps[0];
    TapRecords(c, s, 0, AckHeld);
    IdsGrow(me.held, me.phase.next);
    assert me.held[me.phase.next].job.jobId in IdsUpTo(me.held, |me.held|);
  }

  lemma SoleTapSteps(c: Config, s: World, a: TapAction)
    requires c.Valid() && RoutingInv(c, s) && SoleInv(c, s) && TapCan(c, s, 0, a)
    ensures SoleInv(c, TapDoes(c, s, 0, a))
  {
    hide TerminalIds, ExpectedCount, IdsUpTo, WorkerOk, FeederOk, RowsOk, MarkTerminal, MessageOk, c.Valid, TerminalJobs;
    match a
    case AppendTerminalEvent => SoleTapAppends(c, s);
    case AckHeld => SoleTapAcks(c, s);
    case StartTap(_) =>
      TapRecords(c, s, 0, a);
      StartedKnows(c, s, 0, a);
    case _ =>
      assert TapOk(c, s.declared, s.taps[0]);
      TapRecords(c, s, 0, a);
      NoIds(s.taps[0].held);
  }

  lemma StepKeepsSole(c: Config, s: World, step: Step)
    requires c.Valid() && RoutingInv(c, s) && SoleInv(c, s) && Enabled(c, s, step)
    ensures SoleInv(c, Apply(c, s, step))
  {
    hide WorkerDoes, TapDoes, FeedDoes, WorkerOk, FeederOk, RowsOk, MessageOk, TerminalIds, c.Valid;
    match step
    case AtTap(t, a) => SoleTapSteps(c, s, a);
    case AtWorker(w, a) =>
      WorkerFrame(c, s, w, a);
      WorkerRecords(c, s, w, a);
    case AtFeeder(f, a) =>
      FeederFrame(c, s, f, a);
    case AtOperator(a) =>
      OperatorFrame(c, s, a);
  }
}
