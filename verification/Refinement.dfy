/** The distributed run refines applying the stage handlers one after another. */
module Refinement {
  import opened Common
  import opened Manifest
  import opened Jobs
  import opened Documents
  import opened Protocol
  import opened Routing

  /** A claim about the envelope of a job at a pipeline position. */
  datatype Rule = Rule(holds: (string, nat, Job) -> bool)

  predicate At(rule: Rule, job: Job, jobId: string, k: nat) {
    rule.holds(jobId, k, job)
  }

  /**
   * The hypotheses on a run, step by step: a returning handler takes the claim one position on, a raising one keeps
   * it, seeded envelopes meet it at position 0, and COMPLETED rows are not replayed.
   */
  ghost predicate Faithful(c: Config, rule: Rule, s: World, step: Step) {
    Enabled(c, s, step) ==>
      match step
      case AtWorker(w, HandlerReturns(updated)) =>
        var job := s.workers[w].phase.job;
        At(rule, job, job.jobId, c.slots[w].stage) ==> At(rule, updated, job.jobId, c.slots[w].stage + 1)
      case AtWorker(w, HandlerRaises(left, _)) =>
        var job := s.workers[w].phase.job;
        At(rule, job, job.jobId, c.slots[w].stage) ==> At(rule, left, job.jobId, c.slots[w].stage)
      case AtFeeder(_, Seed(jobs)) => forall i :: 0 <= i < |jobs| ==> At(rule, jobs[i].Resolve(), jobs[i].jobId, 0)
      case AtFeeder(_, ReadRow(jobId, pos)) => s.db.rows[c.Key(jobId, pos)].status != Completed
      case _ => true
  }

  ghost predicate MessageAt(rule: Rule, m: Message) {
    At(rule, m.job, m.job.jobId, m.pos)
  }

  /** How many handlers a job held at a control point has been through, beyond the stages before this one. */
  function Applied(phase: Phase): nat {
    if phase.HandlerReturned? || phase.OutputLogged? || phase.Sent? then 1 else 0
  }

  ghost predicate WorkerAt(rule: Rule, stage: nat, worker: Worker) {
    worker.unacked.Some? ==>
      && MessageAt(rule, worker.unacked.value)
      && (PhaseJob(worker.phase).Some? ==>
            At(rule, PhaseJob(worker.phase).value, worker.unacked.value.job.jobId, stage + Applied(worker.phase)))
      && (worker.frames != [] && worker.frames[0].Publish? ==> MessageAt(rule, worker.frames[0].message))
  }

  ghost predicate ItemsAt(rule: Rule, items: seq<Item>) {
    forall i :: 0 <= i < |items| ==> At(rule, items[i].job, items[i].job.jobId, items[i].pos)
  }

  ghost predicate FeederAt(rule: Rule, feeder: Feeder) {
    match feeder
    case Resting => true
    case Reading(todo) => ItemsAt(rule, todo)
    case Feeding(_, _, todo, marked) => ItemsAt(rule, todo) && ItemsAt(rule, marked)
  }

  ghost predicate RowsAt(c: Config, rule: Rule, rows: Rows) {
    forall j, k: nat {:trigger c.Key(j, k)} :: k <= c.N() && c.Key(j, k) in rows ==>
      At(rule, rows[c.Key(j, k)].job, j, if rows[c.Key(j, k)].status == Completed then k + 1 else k)
  }

  /** The event was written from an envelope that meets the claim. */
  ghost predicate EventValue(c: Config, rule: Rule, e: Event, k: nat, job: Job) {
    && k <= c.N() && e.stage == c.Name(k) && job.jobId == e.jobId
    && match e.kind
       case StageStarted => k < c.N() && At(rule, job, e.jobId, k) && e == StartedEvent(job, c.Name(k))
       case StageOutput => k < c.N() && At(rule, job, e.jobId, k + 1) && e == OutputEvent(job, c.Name(k))
       case TerminalEvent => k == c.N() && At(rule, job, e.jobId, k) && e == TerminalOf(job, c.Name(k))
  }

  ghost predicate Sequential(c: Config, rule: Rule, e: Event) {
    exists k: nat, job :: EventValue(c, rule, e, k, job)
  }

  ghost predicate RefineInv(c: Config, rule: Rule, s: World) {
    && |s.workers| == |c.slots|
    && (forall m :: m in s.ready ==> MessageAt(rule, m))
    && (forall w :: 0 <= w < |s.workers| ==> WorkerAt(rule, c.slots[w].stage, s.workers[w]))
    && (forall t, i :: 0 <= t < |s.taps| && 0 <= i < |s.taps[t].held| ==> MessageAt(rule, s.taps[t].held[i]))
    && (forall f :: 0 <= f < |s.feeders| ==> FeederAt(rule, s.feeders[f]))
    && RowsAt(c, rule, s.db.rows)
    && (forall i :: 0 <= i < |s.db.events| ==> Sequential(c, rule, s.db.events[i]))
  }

  // ---------------------------------------------------------------- preservation

  lemma RowsAtAfterWrite(c: Config, rule: Rule, before: Rows, after: Rows, jobId: string, k: nat)
    requires c.Valid() && k <= c.N() && RowsAt(c, rule, before)
    requires c.Key(jobId, k) in after && after == before[c.Key(jobId, k) := after[c.Key(jobId, k)]]
    requires At(rule, after[c.Key(jobId, k)].job, jobId, if after[c.Key(jobId, k)].status == Completed then k + 1 else k)
    ensures RowsAt(c, rule, after)
  {
    hide At;
    forall j, l: nat {:trigger c.Key(j, l)} | l <= c.N() && c.Key(j, l) in after
      ensures At(rule, after[c.Key(j, l)].job, j, if after[c.Key(j, l)].status == Completed then l + 1 else l)
    {
      if c.Key(j, l) == c.Key(jobId, k) {
        KeysDistinct(c, j, l, jobId, k);
      }
    }
  }

  /** The facts about one busy connection that its steps start from. */
  lemma WorkerFacts(c: Config, rule: Rule, s: World, w: nat)
    requires c.Valid() && RoutingInv(c, s) && RefineInv(c, rule, s) && w < |s.workers|
    requires s.workers[w].unacked.Some?
    ensures var me := s.workers[w];
            var m := me.unacked.value;
            && m.pos == c.slots[w].stage < c.N()
            && m.job.Resolve() == m.job
            && WorkerAt(rule, c.slots[w].stage, me)
            && (me.phase.Received? ==> me.phase.job == m.job)
            && (PhaseJob(me.phase).Some? ==> PhaseJob(me.phase).value.jobId == m.job.jobId && PhaseJob(me.phase).value.runId == c.Run())
            && (me.phase.Received? || me.frames == [] || me.phase.Idle? || me.phase.Sent? || me.phase.Recorded?)
  {
    hide RowsOk, TapOk, FeederOk, RowsAt, FeederAt;
    assert WorkerOk(c, s.declared, c.slots[w].stage, s.workers[w]);
    assert WorkerAt(rule, c.slots[w].stage, s.workers[w]);
  }

  lemma LocalWorkRefines(c: Config, rule: Rule, s: World, w: nat, a: WorkerAction)
    requires c.Valid() && RoutingInv(c, s) && RefineInv(c, rule, s)
    requires WorkerCan(c, s, w, a) && Faithful(c, rule, s, AtWorker(w, a)) && !OnChannel(a)
    ensures WorkerAt(rule, c.slots[w].stage, WorkerDoes(c, s, w, a).workers[w])
    ensures WorkerDoes(c, s, w, a).ready == s.ready
  {
    hide c.Valid, RoutingInv, RefineInv, MessageAt, WorkerDoes, At, ActiveHold, LedgerSize;
    LocalMoves(c, s, w, a);
    HeldIsUnacked(c, s, w);
    WorkerFacts(c, rule, s, w);
    if a.CheckHold? {
      ReceivedIsResolved(c, rule, s, w);
    }
  }

  lemma ReceivedIsResolved(c: Config, rule: Rule, s: World, w: nat)
    requires c.Valid() && RoutingInv(c, s) && RefineInv(c, rule, s) && WorkerCan(c, s, w, CheckHold)
    ensures s.workers[w].phase.job.Resolve() == s.workers[w].phase.job
  {
    hide c.Valid, RoutingInv, RefineInv;
    HeldIsUnacked(c, s, w);
    WorkerFacts(c, rule, s, w);
  }

  lemma HeldIsUnacked(c: Config, s: World, w: nat)
    requires c.Valid() && RoutingInv(c, s) && w < |s.workers|
    requires s.workers[w].phase != Idle
    ensures s.workers[w].unacked.Some?
  {
    assert WorkerOk(c, s.declared, c.slots[w].stage, s.workers[w]);
  }

  lemma DeliveryRefines(c: Config, rule: Rule, s: World, w: nat, a: WorkerAction)
    requires c.Valid() && RoutingInv(c, s) && RefineInv(c, rule, s) && WorkerCan(c, s, w, a) && a.Deliver?
    ensures forall m :: m in WorkerDoes(c, s, w, a).ready ==> MessageAt(rule, m)
    ensures WorkerAt(rule, c.slots[w].stage, WorkerDoes(c, s, w, a).workers[w])
  {
    hide c.Valid, RowsOk, TapOk, FeederOk, WorkerOk, MessageOk, RowsAt, FeederAt, At;
    var m := s.ready[a.i];
    assert MessageAt(rule, m);
    DeliveredAtItsStage(c, s.declared, w, m);
    assert c.slots[w].stage + Applied(Received(m.job)) == m.pos;
  }

  lemma ChannelWorkRefines(c: Config, rule: Rule, s: World, w: nat, a: WorkerAction)
    requires c.Valid() && RoutingInv(c, s) && RefineInv(c, rule, s) && WorkerCan(c, s, w, a) && OnChannel(a)
    ensures WorkerDoes(c, s, w, a).db == s.db
    ensures forall m :: m in WorkerDoes(c, s, w, a).ready ==> MessageAt(rule, m)
    ensures WorkerAt(rule, c.slots[w].stage, WorkerDoes(c, s, w, a).workers[w])
  {
    hide c.Valid, RoutingInv, RowsAt, FeederAt, At, Subscribed;
    if a.Deliver? {
      DeliveryRefines(c, rule, s, w, a);
    } else if a.BrokerHandles? || a.Crash? {
      BrokerRefines(c, rule, s, w, a);
    } else {
      HeldIsUnacked(c, s, w);
      WorkerFacts(c, rule, s, w);
      assert PhaseJob(s.workers[w].phase).Some? ==> PhaseJob(s.workers[w].phase).value.jobId == s.workers[w].unacked.value.job.jobId;
    }
  }

  lemma BrokerRefines(c: Config, rule: Rule, s: World, w: nat, a: WorkerAction)
    requires c.Valid() && RoutingInv(c, s) && RefineInv(c, rule, s) && WorkerCan(c, s, w, a) && (a.BrokerHandles? || a.Crash?)
    ensures forall m :: m in WorkerDoes(c, s, w, a).ready ==> MessageAt(rule, m)
    ensures WorkerAt(rule, c.slots[w].stage, WorkerDoes(c, s, w, a).workers[w])
  {
    hide c.Valid, RowsOk, TapOk, FeederOk, MessageOk, RowsAt, FeederAt, MessageAt;
    var me := s.workers[w];
    assert WorkerOk(c, s.declared, c.slots[w].stage, me) && WorkerAt(rule, c.slots[w].stage, me);
  }

  lemma WorkerRowsRefine(c: Config, rule: Rule, s: World, w: nat, a: WorkerAction)
    requires c.Valid() && RoutingInv(c, s) && RefineInv(c, rule, s) && WorkerCan(c, s, w, a)
    ensures RowsAt(c, rule, WorkerDoes(c, s, w, a).db.rows)
  {
    hide WorkerDoes, RoutingInv, RowsAt, FeederAt, At, c.Valid;
    if !WritesRow(a) {
      WorkerLeavesRows(c, s, w, a);
    } else {
      WorkerWritesRow(c, s, w, a);
      WorkerFacts(c, rule, s, w);
      RowsAtAfterWrite(c, rule, s.db.rows, WorkerDoes(c, s, w, a).db.rows, s.workers[w].phase.job.jobId, c.slots[w].stage);
    }
  }

  lemma WorkerEventsRefine(c: Config, rule: Rule, s: World, w: nat, a: WorkerAction)
    requires c.Valid() && RoutingInv(c, s) && RefineInv(c, rule, s) && WorkerCan(c, s, w, a)
    ensures forall e :: e in WorkerDoes(c, s, w, a).db.events ==> e in s.db.events || Sequential(c, rule, e)
  {
    hide RowsOk, TapOk, FeederOk, MessageOk, RowsAt, FeederAt, ActiveHold, LedgerSize, c.Valid, Upsert;
    if a.AppendStarted? || a.AppendOutput? {
      HeldIsUnacked(c, s, w);
      WorkerFacts(c, rule, s, w);
      var k := c.slots[w].stage;
      var job := s.workers[w].phase.job;
      var e := if a.AppendStarted? then StartedEvent(job, c.Name(k)) else OutputEvent(job, c.Name(k));
      assert EventValue(c, rule, e, k, job);
    }
  }

  lemma EventsRefine(c: Config, rule: Rule, before: seq<Event>, after: seq<Event>)
    requires forall i :: 0 <= i < |before| ==> Sequential(c, rule, before[i])
    requires forall e :: e in after ==> e in before || Sequential(c, rule, e)
    ensures forall i :: 0 <= i < |after| ==> Sequential(c, rule, after[i])
  {
    hide Sequential;
    forall i | 0 <= i < |after| ensures Sequential(c, rule, after[i]) {
      assert after[i] in after;
    }
  }

  lemma WorkerRefines(c: Config, rule: Rule, s: World, w: nat, a: WorkerAction)
    requires c.Valid() && RoutingInv(c, s) && RefineInv(c, rule, s)
    requires WorkerCan(c, s, w, a) && Faithful(c, rule, s, AtWorker(w, a))
    ensures RefineInv(c, rule, WorkerDoes(c, s, w, a))
  {
    hide WorkerDoes, RoutingInv, RowsAt, FeederAt, MessageAt, WorkerAt, Sequential, c.Valid;
    var s' := WorkerDoes(c, s, w, a);
    WorkerFrame(c, s, w, a);
    WorkerRowsRefine(c, rule, s, w, a);
    WorkerEventsRefine(c, rule, s, w, a);
    EventsRefine(c, rule, s.db.events, s'.db.events);
    if OnChannel(a) {
      ChannelWorkRefines(c, rule, s, w, a);
    } else {
      LocalWorkRefines(c, rule, s, w, a);
    }
  }

  lemma TapEventsRefine(c: Config, rule: Rule, s: World, t: nat)
    requires c.Valid() && RoutingInv(c, s) && RefineInv(c, rule, s) && TapCan(c, s, t, AppendTerminalEvent)
    ensures Sequential(c, rule, TerminalOf(s.taps[t].held[s.taps[t].phase.next].job, TERMINAL_STAGE))
  {
    hide RowsOk, WorkerOk, FeederOk, RowsAt, FeederAt;
    var m := s.taps[t].held[s.taps[t].phase.next];
    assert TapOk(c, s.declared, s.taps[t]) && MessageAt(rule, m);
    assert EventValue(c, rule, TerminalOf(m.job, TERMINAL_STAGE), c.N(), m.job);
  }

  lemma TapRowsRefine(c: Config, rule: Rule, s: World, t: nat, a: TapAction)
    requires c.Valid() && RoutingInv(c, s) && RefineInv(c, rule, s) && TapCan(c, s, t, a)
    ensures RowsAt(c, rule, TapDoes(c, s, t, a).db.rows)
  {
    hide RowsOk, WorkerOk, FeederOk, RowsAt, FeederAt, TerminalIds, ExpectedCount, At, c.Valid;
    if a.WriteTerminalRow? {
      var m := s.taps[t].held[s.taps[t].phase.next];
      assert TapOk(c, s.declared, s.taps[t]) && MessageAt(rule, m);
      RowsAtAfterWrite(c, rule, s.db.rows, TapDoes(c, s, t, a).db.rows, m.job.jobId, c.N());
    }
  }

  lemma TapMovesRefine(c: Config, rule: Rule, s: World, t: nat, a: TapAction)
    requires RefineInv(c, rule, s) && TapCan(c, s, t, a)
    ensures var s' := TapDoes(c, s, t, a);
            && (forall m :: m in s'.ready ==> MessageAt(rule, m))
            && (forall i :: 0 <= i < |s'.taps[t].held| ==> MessageAt(rule, s'.taps[t].held[i]))
            && (a.AppendTerminalEvent? || s'.db.events == s.db.events)
  {
    hide RowsAt, FeederAt, TerminalIds, ExpectedCount, MessageAt, Upsert, WorkerAt, Sequential;
  }

  lemma TapRefines(c: Config, rule: Rule, s: World, t: nat, a: TapAction)
    requires c.Valid() && RoutingInv(c, s) && RefineInv(c, rule, s) && TapCan(c, s, t, a)
    ensures RefineInv(c, rule, TapDoes(c, s, t, a))
  {
    hide RoutingInv, RowsAt, FeederAt, MessageAt, WorkerAt, Sequential, c.Valid, TerminalIds, ExpectedCount, Upsert;
    TapFrame(c, s, t, a);
    TapRowsRefine(c, rule, s, t, a);
    TapMovesRefine(c, rule, s, t, a);
    if a.AppendTerminalEvent? {
      TapEventsRefine(c, rule, s, t);
    }
  }

  lemma FeederRowsRefine(c: Config, rule: Rule, s: World, f: nat, a: FeedAction)
    requires c.Valid() && RoutingInv(c, s) && RefineInv(c, rule, s) && FeedCan(c, s, f, a)
    ensures RowsAt(c, rule, FeedDoes(c, s, f, a).db.rows)
  {
    hide RowsOk, WorkerOk, RowsAt, At, c.Valid, ActiveIds, TapOk, WorkerAt;
    if a.MarkNext? {
      var item := s.feeders[f].todo[0];
      assert FeederOk(c, s.declared, s.feeders[f]) && FeederAt(rule, s.feeders[f]);
      RowsAtAfterWrite(c, rule, s.db.rows, FeedDoes(c, s, f, a).db.rows, item.job.jobId, item.pos);
    }
  }

  lemma ReadRowRefines(c: Config, rule: Rule, s: World, f: nat, jobId: string, pos: nat)
    requires c.Valid() && RoutingInv(c, s) && RefineInv(c, rule, s)
    requires FeedCan(c, s, f, ReadRow(jobId, pos)) && Faithful(c, rule, s, AtFeeder(f, ReadRow(jobId, pos)))
    ensures var job := s.db.rows[c.Key(jobId, pos)].job.Resolve(); At(rule, job, job.jobId, pos)
  {
    hide RowsOk, WorkerOk, TapOk, FeederOk, FeederAt, WorkerAt;
    ReadRowIsOk(c, s, jobId, pos);
    RowIsResolved(c, s, jobId, pos);
  }

  lemma RowIsResolved(c: Config, s: World, jobId: string, pos: nat)
    requires c.Valid() && RoutingInv(c, s) && pos < c.N() && c.Key(jobId, pos) in s.db.rows
    ensures s.db.rows[c.Key(jobId, pos)].job.Resolve() == s.db.rows[c.Key(jobId, pos)].job
  {
    hide MessageOk, WorkerOk, TapOk, FeederOk;
    assert RowOk(c, jobId, pos, s.db.rows[c.Key(jobId, pos)]);
  }

  lemma FeederItemsRefine(c: Config, rule: Rule, s: World, f: nat, a: FeedAction)
    requires c.Valid() && RoutingInv(c, s) && RefineInv(c, rule, s)
    requires FeedCan(c, s, f, a) && Faithful(c, rule, s, AtFeeder(f, a))
    ensures FeederAt(rule, FeedDoes(c, s, f, a).feeders[f])
    ensures forall m :: m in FeedDoes(c, s, f, a).ready ==> MessageAt(rule, m)
  {
    hide RowsOk, WorkerOk, TapOk, FeederOk, RowsAt, c.Valid, ActiveIds, Upsert, WorkerAt, Sequential, NoDuplicates, JobIds;
    var me := s.feeders[f];
    assert FeederAt(rule, me);
    match a
    case ReadRow(jobId, pos) => ReadRowRefines(c, rule, s, f, jobId, pos);
    case Seed(jobs) =>
      forall i | 0 <= i < |jobs| ensures At(rule, jobs[i].Resolve(), jobs[i].Resolve().jobId, 0) {
        assert jobs[i].Resolve().jobId == jobs[i].jobId;
      }
    case _ =>
  }

  lemma FeederRefines(c: Config, rule: Rule, s: World, f: nat, a: FeedAction)
    requires c.Valid() && RoutingInv(c, s) && RefineInv(c, rule, s)
    requires FeedCan(c, s, f, a) && Faithful(c, rule, s, AtFeeder(f, a))
    ensures RefineInv(c, rule, FeedDoes(c, s, f, a))
  {
    hide FeedDoes, RoutingInv, RowsAt, FeederAt, MessageAt, WorkerAt, Sequential, c.Valid;
    FeederFrame(c, s, f, a);
    FeederRowsRefine(c, rule, s, f, a);
    FeederItemsRefine(c, rule, s, f, a);
  }

  lemma StepRefines(c: Config, rule: Rule, s: World, step: Step)
    requires c.Valid() && RoutingInv(c, s) && RefineInv(c, rule, s)
    requires Enabled(c, s, step) && Faithful(c, rule, s, step)
    ensures RefineInv(c, rule, Apply(c, s, step))
  {
    hide WorkerDoes, TapDoes, FeedDoes, RoutingInv, RowsAt, FeederAt, MessageAt, WorkerAt, Sequential, c.Valid;
    match step
    case AtWorker(w, a) => WorkerRefines(c, rule, s, w, a);
    case AtTap(t, a) => TapRefines(c, rule, s, t, a);
    case AtFeeder(f, a) => FeederRefines(c, rule, s, f, a);
    case AtOperator(a) => OperatorFrame(c, s, a);
  }

  // ---------------------------------------------------------------- why COMPLETED rows are excluded

  lemma CompletedRowIsAhead(c: Config, rule: Rule, s: World, jobId: string, pos: nat)
    requires c.Valid() && RoutingInv(c, s) && RefineInv(c, rule, s)
    requires pos < c.N() && c.Key(jobId, pos) in s.db.rows && s.db.rows[c.Key(jobId, pos)].status == Completed
    ensures At(rule, s.db.rows[c.Key(jobId, pos)].job.Resolve(), jobId, pos + 1)
    ensures s.db.rows[c.Key(jobId, pos)].job.Resolve().jobId == jobId
  {
    hide MessageOk, WorkerOk, TapOk, FeederOk, WorkerAt, FeederAt, MessageAt;
    assert RowOk(c, jobId, pos, s.db.rows[c.Key(jobId, pos)]);
  }

  // ---------------------------------------------------------------- the sequential fold

  /** The sequential specification: the first k handlers applied in order. */
  function Fold(handlers: seq<Job -> Job>, k: nat, job: Job): Job
    requires k <= |handlers|
  {
    if k == 0 then job else handlers[k - 1](Fold(handlers, k - 1, job))
  }

  /** What the handlers return when they return, and the one envelope each job id is seeded with. */
  datatype Plan = Plan(handlers: seq<Job -> Job>, seeds: map<string, Job>)

  /** The envelope at position k is the fold of the first k handlers over the job's seed. */
  function FoldRule(plan: Plan): Rule {
    Rule((id: string, k: nat, job: Job) => k <= |plan.handlers| && id in plan.seeds && job == Fold(plan.handlers, k, plan.seeds[id]))
  }

  /**
   * The run uses the plan: a returning handler is the plan's, a raising one leaves the envelope alone, a job id is
   * always seeded with its one envelope, and COMPLETED rows are not replayed.
   */
  ghost predicate FollowsPlan(c: Config, plan: Plan, s: World, step: Step) {
    Enabled(c, s, step) ==>
      match step
      case AtWorker(w, HandlerReturns(updated)) =>
        c.slots[w].stage < |plan.handlers| && updated == plan.handlers[c.slots[w].stage](s.workers[w].phase.job)
      case AtWorker(w, HandlerRaises(left, _)) => left == s.workers[w].phase.job
      case AtFeeder(_, Seed(jobs)) =>
        forall i :: 0 <= i < |jobs| ==> jobs[i].jobId in plan.seeds && jobs[i].Resolve() == plan.seeds[jobs[i].jobId]
      case AtFeeder(_, ReadRow(jobId, pos)) => s.db.rows[c.Key(jobId, pos)].status != Completed
      case _ => true
  }

  lemma FoldStep(plan: Plan, k: nat, jobId: string)
    requires k < |plan.handlers| && jobId in plan.seeds
    ensures Fold(plan.handlers, k + 1, plan.seeds[jobId]) == plan.handlers[k](Fold(plan.handlers, k, plan.seeds[jobId]))
  {
  }

  lemma PlanIsFaithful(c: Config, plan: Plan, s: World, step: Step)
    requires |plan.handlers| == c.N() && FollowsPlan(c, plan, s, step)
    ensures Faithful(c, FoldRule(plan), s, step)
  {
    if Enabled(c, s, step) && step.AtWorker? && step.work.HandlerReturns? {
      var job := s.workers[step.w].phase.job;
      if job.jobId in plan.seeds {
        FoldStep(plan, c.slots[step.w].stage, job.jobId);
      }
    }
  }

  /** The fold, together with the index the step wrapper stamps. */
  function StampedFoldRule(plan: Plan): Rule {
    Rule((id: string, k: nat, job: Job) =>
      && k <= |plan.handlers| && id in plan.seeds && job == Fold(plan.handlers, k, plan.seeds[id])
      && (k > 0 ==> job.stepIndex == k))
  }

  lemma PlanIsStamped(c: Config, plan: Plan, s: World, step: Step)
    requires |plan.handlers| == c.N() && FollowsPlan(c, plan, s, step)
    ensures Faithful(c, StampedFoldRule(plan), s, step)
  {
    if Enabled(c, s, step) && step.AtWorker? && step.work.HandlerReturns? {
      var job := s.workers[step.w].phase.job;
      if job.jobId in plan.seeds {
        FoldStep(plan, c.slots[step.w].stage, job.jobId);
      }
    }
  }

  // ---------------------------------------------------------------- the step index

  /** The envelope's step index is its position. */
  function StampRule(): Rule {
    Rule((id: string, k: nat, job: Job) => job.stepIndex == k)
  }

  /** Seeds start at 0, a raising handler leaves the index alone, and COMPLETED rows are not replayed. */
  ghost predicate KeepsStamps(c: Config, s: World, step: Step) {
    Enabled(c, s, step) ==>
      match step
      case AtWorker(w, HandlerRaises(left, _)) => left.stepIndex == s.workers[w].phase.job.stepIndex
      case AtFeeder(_, Seed(jobs)) => forall i :: 0 <= i < |jobs| ==> jobs[i].stepIndex == 0
      case AtFeeder(_, ReadRow(jobId, pos)) => s.db.rows[c.Key(jobId, pos)].status != Completed
      case _ => true
  }

  /** `make_handler` stamps what a handler returns, so the rule needs nothing of it. */
  lemma StampsAreFaithful(c: Config, s: World, step: Step)
    requires KeepsStamps(c, s, step)
    ensures Faithful(c, StampRule(), s, step)
  {
  }
}
