/** Runs that exist: the sequential result is reached, and so are the states the hypotheses of the main results exclude. */
module Scenarios {
  import opened Common
  import opened Targeting
  import opened Manifest
  import opened Jobs
  import opened Documents
  import opened Store
  import opened StageExecutions
  import AppendOrder
  import RowShape
  import Ledger
  import Frontier
  import opened Protocol
  import opened Routing
  import opened Counting
  import opened TerminalChain
  import opened Recordings
  import opened Refinement
  import opened Completion
  import opened Workers
  import opened TerminalTaps
  import opened Runs

  // ---------------------------------------------------------------- stretches of a run

  /** From `s` these steps can be taken in order, ending in `s'`. */
  ghost predicate Leads(c: Config, s: World, steps: seq<Step>, s': World)
    decreases |steps|
  {
    if steps == [] then s' == s else Enabled(c, s, steps[0]) && Leads(c, Apply(c, s, steps[0]), steps[1..], s')
  }

  /** This run from set-up ends in this state. */
  ghost predicate RunTo(c: Config, trace: seq<World>, steps: seq<Step>, s: World)
    requires c.Valid()
  {
    Execution(c, trace, steps) && Initial(c, trace[0]) && trace[|steps|] == s
  }

  ghost predicate Reachable(c: Config, s: World)
    requires c.Valid()
  {
    exists trace, steps :: RunTo(c, trace, steps, s)
  }

  lemma OneStep(c: Config, s: World, step: Step, s1: World, rest: seq<Step>, s': World)
    requires Enabled(c, s, step) && Apply(c, s, step) == s1 && Leads(c, s1, rest, s')
    ensures Leads(c, s, [step] + rest, s')
  {
    hide Enabled, Apply;
    assert ([step] + rest)[1..] == rest;
  }

  lemma NoStep(c: Config, s: World)
    ensures Leads(c, s, [], s)
  {
  }

  lemma {:induction false} LeadsOn(c: Config, s: World, first: seq<Step>, mid: World, second: seq<Step>, s': World)
    requires Leads(c, s, first, mid) && Leads(c, mid, second, s')
    ensures Leads(c, s, first + second, s')
    decreases |first|
  {
    hide Enabled, Apply;
    if first == [] {
      assert first + second == second;
    } else {
      LeadsOn(c, Apply(c, s, first[0]), first[1..], mid, second, s');
      assert (first + second)[1..] == first[1..] + second;
    }
  }

  lemma ExtendRun(c: Config, trace: seq<World>, steps: seq<Step>, s: World, step: Step)
    requires c.Valid() && RunTo(c, trace, steps, s) && Enabled(c, s, step)
    ensures RunTo(c, trace + [Apply(c, s, step)], steps + [step], Apply(c, s, step))
  {
    hide c.Valid, Enabled, Apply;
  }

  lemma {:induction false} ReachesOn(c: Config, s: World, more: seq<Step>, s': World)
    requires c.Valid() && Reachable(c, s) && Leads(c, s, more, s')
    ensures Reachable(c, s')
    decreases |more|
  {
    hide c.Valid, Enabled, Apply, RunTo;
    if more != [] {
      var trace, steps :| RunTo(c, trace, steps, s);
      ExtendRun(c, trace, steps, s, more[0]);
      ReachesOn(c, Apply(c, s, more[0]), more[1..], s');
    }
  }

  lemma InitialIsReachable(c: Config, s: World)
    requires c.Valid() && Initial(c, s)
    ensures Reachable(c, s)
  {
    hide c.Valid, Initial;
    assert RunTo(c, [s], [], s);
  }

  function AtEach(w: nat, actions: seq<WorkerAction>): seq<Step> {
    seq(|actions|, i requires 0 <= i < |actions| => AtWorker(w, actions[i]))
  }

  lemma {:induction false} WorkLeads(c: Config, s: World, w: nat, actions: seq<WorkerAction>, s': World)
    requires Performs(c, s, w, actions, s')
    ensures Leads(c, s, AtEach(w, actions), s')
    decreases |actions|
  {
    hide WorkerDoes, WorkerCan;
    if actions != [] {
      WorkLeads(c, WorkerDoes(c, s, w, actions[0]), w, actions[1..], s');
      assert AtEach(w, actions)[1..] == AtEach(w, actions[1..]);
    }
  }

  function AtEachTap(t: nat, actions: seq<TapAction>): seq<Step> {
    seq(|actions|, i requires 0 <= i < |actions| => AtTap(t, actions[i]))
  }

  lemma {:induction false} TapWorkLeads(c: Config, s: World, t: nat, actions: seq<TapAction>, s': World)
    requires TapPerforms(c, s, t, actions, s')
    ensures Leads(c, s, AtEachTap(t, actions), s')
    decreases |actions|
  {
    hide TapDoes, TapCan;
    if actions != [] {
      TapWorkLeads(c, TapDoes(c, s, t, actions[0]), t, actions[1..], s');
      assert AtEachTap(t, actions)[1..] == AtEachTap(t, actions[1..]);
    }
  }

  // ---------------------------------------------------------------- feeding one job

  /** The message a fed item becomes. */
  function MessageOf(c: Config, item: Item): Message
    requires c.Valid() && item.pos <= c.N()
  {
    Message(c.Queue(item.pos, item.job.partitionKey), item.pos, item.job)
  }

  function FeedSteps(f: nat): seq<Step> {
    [AtFeeder(f, DeclareNext)] + ([AtFeeder(f, MarkNext)] + ([AtFeeder(f, PublishMarked(0))] + []))
  }

  /** What feeding one item leaves: its queues declared, its row marked, its message ready. */
  function Fed(c: Config, s: World, f: nat, item: Item, batch: Option<nat>): World
    requires c.Valid() && item.pos < c.N() && f < |s.feeders|
  {
    var key := item.job.partitionKey;
    s.(db := MarkPending(s.db, item.job, c.Name(item.pos), c.Queue(item.pos, key)),
       declared := s.declared + c.manifest.PartitionQueueSet(key),
       marked := s.marked + {item.job.jobId})
     .Accept(MessageOf(c, item))
     .SetFeeder(f, Feeding(batch, {key}, [], []))
  }

  /** Feeding one item, before the publish. */
  function MarkedOnly(c: Config, s: World, f: nat, item: Item, batch: Option<nat>): World
    requires c.Valid() && item.pos < c.N() && f < |s.feeders|
  {
    var key := item.job.partitionKey;
    s.(db := MarkPending(s.db, item.job, c.Name(item.pos), c.Queue(item.pos, key)),
       declared := s.declared + c.manifest.PartitionQueueSet(key),
       marked := s.marked + {item.job.jobId})
     .SetFeeder(f, Feeding(batch, {key}, [], [item]))
  }

  lemma MarksOne(c: Config, s: World, f: nat, item: Item, batch: Option<nat>)
    requires c.Valid() && item.pos < c.N() && f < |s.feeders| && s.feeders[f] == Feeding(batch, {}, [item], [])
    ensures Leads(c, s, [AtFeeder(f, DeclareNext)] + ([AtFeeder(f, MarkNext)] + []), MarkedOnly(c, s, f, item, batch))
  {
    hide Leads, MarkPending, c.Valid, c.Queue, c.manifest.PartitionQueueSet, c.manifest.StageInputQueue;
    var key := item.job.partitionKey;
    InputQueueOf(c, item.pos, key);
    var s1 := s.(declared := s.declared + c.manifest.PartitionQueueSet(key)).SetFeeder(f, Feeding(batch, {key}, [item], []));
    var s2 := MarkedOnly(c, s, f, item, batch);
    assert {} + {key} == {key} && [item][1..] == [] && [] + [item] == [item];
    assert Apply(c, s, AtFeeder(f, DeclareNext)) == s1;
    assert Apply(c, s1, AtFeeder(f, MarkNext)) == s2;
    NoStep(c, s2);
    OneStep(c, s1, AtFeeder(f, MarkNext), s2, [], s2);
    OneStep(c, s, AtFeeder(f, DeclareNext), s1, [AtFeeder(f, MarkNext)] + [], s2);
  }

  lemma PublishesOne(c: Config, s: World, f: nat, item: Item, batch: Option<nat>)
    requires c.Valid() && item.pos < c.N() && f < |s.feeders|
    ensures var marked := MarkedOnly(c, s, f, item, batch);
            && Enabled(c, marked, AtFeeder(f, PublishMarked(0)))
            && Apply(c, marked, AtFeeder(f, PublishMarked(0))) == Fed(c, s, f, item, batch)
    ensures Fed(c, s, f, item, batch).ready == s.ready + [MessageOf(c, item)]
  {
    hide MarkPending, c.Valid, c.Queue, c.manifest.PartitionQueueSet, c.manifest.StageInputQueue;
    InputQueueOf(c, item.pos, item.job.partitionKey);
    QueueDeclared(c, s.declared + c.manifest.PartitionQueueSet(item.job.partitionKey), item.pos, item.job.partitionKey);
    assert Without([item], 0) == [];
  }

  lemma FeedsOne(c: Config, s: World, f: nat, item: Item, batch: Option<nat>)
    requires c.Valid() && item.pos < c.N() && f < |s.feeders| && s.feeders[f] == Feeding(batch, {}, [item], [])
    ensures Leads(c, s, FeedSteps(f), Fed(c, s, f, item, batch))
    ensures Fed(c, s, f, item, batch).ready == s.ready + [MessageOf(c, item)]
  {
    hide Leads, c.Valid, Enabled, Apply, Fed, MarkedOnly;
    var publish := AtFeeder(f, PublishMarked(0));
    var marked := MarkedOnly(c, s, f, item, batch);
    MarksOne(c, s, f, item, batch);
    PublishesOne(c, s, f, item, batch);
    NoStep(c, Fed(c, s, f, item, batch));
    OneStep(c, marked, publish, Fed(c, s, f, item, batch), [], Fed(c, s, f, item, batch));
    LeadsOn(c, s, [AtFeeder(f, DeclareNext)] + ([AtFeeder(f, MarkNext)] + []), marked, [publish] + [], Fed(c, s, f, item, batch));
    assert ([AtFeeder(f, DeclareNext)] + ([AtFeeder(f, MarkNext)] + [])) + ([publish] + []) == FeedSteps(f);
  }

  // ---------------------------------------------------------------- replaying one row

  function ReplaySteps(f: nat, jobId: string, pos: nat): seq<Step> {
    [AtFeeder(f, OpenReplay)] + ([AtFeeder(f, ReadRow(jobId, pos))] + ([AtFeeder(f, CloseReplayRead)] + FeedSteps(f)))
  }

  function StoredItem(c: Config, s: World, jobId: string, pos: nat): Item
    requires c.Key(jobId, pos) in s.db.rows
  {
    Item(pos, s.db.rows[c.Key(jobId, pos)].job.Resolve())
  }

  /** Replaying one row to its end, the publish included. */
  function Replayed(c: Config, s: World, f: nat, jobId: string, pos: nat): World
    requires c.Valid() && pos < c.N() && f < |s.feeders| && c.Key(jobId, pos) in s.db.rows
  {
    Fed(c, s, f, StoredItem(c, s, jobId, pos), None)
  }

  lemma ReplaysOne(c: Config, s: World, f: nat, jobId: string, pos: nat)
    requires c.Valid() && pos < c.N() && f < |s.feeders| && s.feeders[f].Resting? && c.Key(jobId, pos) in s.db.rows
    ensures Leads(c, s, ReplaySteps(f, jobId, pos), Replayed(c, s, f, jobId, pos))
    ensures Replayed(c, s, f, jobId, pos).ready == s.ready + [MessageOf(c, StoredItem(c, s, jobId, pos))]
  {
    hide Leads, Upsert, c.Valid, FeedSteps, Fed;
    var item := StoredItem(c, s, jobId, pos);
    var s1 := s.SetFeeder(f, Reading([]));
    var s2 := s.SetFeeder(f, Reading([item]));
    var s3 := s.SetFeeder(f, Feeding(None, {}, [item], []));
    assert [] + [item] == [item];
    assert Apply(c, s, AtFeeder(f, OpenReplay)) == s1;
    assert Apply(c, s1, AtFeeder(f, ReadRow(jobId, pos))) == s2;
    assert Apply(c, s2, AtFeeder(f, CloseReplayRead)) == s3;
    FeedsOne(c, s3, f, item, None);
    SameFeed(c, s, f, item, None);
    var end := Replayed(c, s, f, jobId, pos);
    OneStep(c, s2, AtFeeder(f, CloseReplayRead), s3, FeedSteps(f), end);
    OneStep(c, s1, AtFeeder(f, ReadRow(jobId, pos)), s2, [AtFeeder(f, CloseReplayRead)] + FeedSteps(f), end);
    OneStep(c, s, AtFeeder(f, OpenReplay), s1, [AtFeeder(f, ReadRow(jobId, pos))] + ([AtFeeder(f, CloseReplayRead)] + FeedSteps(f)), end);
  }

  /** What the feeder held before does not show afterwards. */
  lemma SameFeed(c: Config, s: World, f: nat, item: Item, batch: Option<nat>)
    requires c.Valid() && item.pos < c.N() && f < |s.feeders|
    ensures Fed(c, s.SetFeeder(f, Feeding(batch, {}, [item], [])), f, item, batch) == Fed(c, s, f, item, batch)
  {
    hide c.Valid, Upsert;
  }

  // ---------------------------------------------------------------- replaying a COMPLETED row

  /** Every queued envelope meets the claim at its position. */
  ghost predicate WireMeets(rule: Rule, s: World) {
    forall m :: m in s.ready ==> MessageAt(rule, m)
  }

  /**
   * Replaying a COMPLETED row publishes the finished envelope to the stage that finished it; the queues still meet a
   * claim that held so far if and only if that envelope also meets it one position back.
   */
  lemma ReplayOfCompletedReapplies(c: Config, rule: Rule, s: World, f: nat, jobId: string, pos: nat)
    requires c.Valid() && RoutingInv(c, s) && RefineInv(c, rule, s)
    requires pos < c.N() && f < |s.feeders| && s.feeders[f].Resting?
    requires c.Key(jobId, pos) in s.db.rows && s.db.rows[c.Key(jobId, pos)].status == Completed
    ensures var item, after := StoredItem(c, s, jobId, pos), Replayed(c, s, f, jobId, pos);
            && Leads(c, s, ReplaySteps(f, jobId, pos), after)
            && after.ready == s.ready + [MessageOf(c, item)] && item.job.jobId == jobId
            && At(rule, item.job, jobId, pos + 1)
            && (WireMeets(rule, after) <==> At(rule, item.job, jobId, pos))
  {
    hide c.Valid, RoutingInv, RowsAt, WorkerAt, FeederAt, Sequential, At, Leads, Fed, ReplaySteps;
    ReplaysOne(c, s, f, jobId, pos);
    CompletedRowIsAhead(c, rule, s, jobId, pos);
    var after := Replayed(c, s, f, jobId, pos);
    var m := MessageOf(c, StoredItem(c, s, jobId, pos));
    assert after.ready[|s.ready|] == m;
    assert m in after.ready;
  }

  /** Every queued envelope is the fold of the handlers before its position. */
  ghost predicate WireIsSequential(c: Config, plan: Plan, s: World)
    requires |plan.handlers| == c.N()
  {
    forall m :: m in s.ready ==>
      m.pos <= c.N() && m.job.jobId in plan.seeds && m.job == Fold(plan.handlers, m.pos, plan.seeds[m.job.jobId])
  }

  lemma RunIsStamped(c: Config, plan: Plan, trace: seq<World>, steps: seq<Step>, t: nat)
    requires c.Valid() && |plan.handlers| == c.N() && Execution(c, trace, steps) && Initial(c, trace[0]) && t < |trace|
    requires forall i :: 0 <= i < t ==> FollowsPlan(c, plan, trace[i], steps[i])
    ensures RefineInv(c, StampedFoldRule(plan), trace[t])
  {
    hide c.Valid, Enabled, Apply, FollowsPlan, Faithful, RefineInv;
    forall i | 0 <= i < t ensures Faithful(c, StampedFoldRule(plan), trace[i], steps[i]) {
      PlanIsStamped(c, plan, trace[i], steps[i]);
    }
    RunRefines(c, StampedFoldRule(plan), trace, steps, t);
  }

  /** What a row of a run that followed the plan stores, and what replaying it publishes. */
  lemma StoredIsFold(c: Config, plan: Plan, s: World, jobId: string, pos: nat)
    requires c.Valid() && |plan.handlers| == c.N() && RoutingInv(c, s) && RefineInv(c, StampedFoldRule(plan), s)
    requires pos < c.N() && c.Key(jobId, pos) in s.db.rows
    ensures jobId in plan.seeds
    ensures var job := StoredItem(c, s, jobId, pos).job;
            var k := if s.db.rows[c.Key(jobId, pos)].status == Completed then pos + 1 else pos;
            && job.jobId == jobId && job == Fold(plan.handlers, k, plan.seeds[jobId]) && (k > 0 ==> job.stepIndex == k)
  {
    hide RowsOk, MessageOk, WorkerOk, TapOk, FeederOk, WorkerAt, FeederAt, MessageAt, Sequential, Fold;
    RowIsResolved(c, s, jobId, pos);
    ReadRowIsOk(c, s, jobId, pos);
    assert At(StampedFoldRule(plan), s.db.rows[c.Key(jobId, pos)].job, jobId,
              if s.db.rows[c.Key(jobId, pos)].status == Completed then pos + 1 else pos);
  }

  lemma StageBeforeIsDone(c: Config, s: World, jobId: string, pos: nat)
    requires AppendOrder.AppendInv(c, s) && 0 < pos < c.N() && c.Key(jobId, pos) in s.db.rows
    ensures AppendOrder.Done(c, s.db.events, jobId, pos - 1)
  {
    hide AppendOrder.Done, AppendOrder.MessagesPrior, AppendOrder.WorkerPrior, AppendOrder.FeederPrior, AppendOrder.EventsPrior;
    assert AppendOrder.Prior(c, s.db.events, jobId, pos);
  }

  lemma LoggedEnvelope(c: Config, rule: Rule, e: Event, k: nat) returns (job: Job)
    requires c.Valid() && k < c.N() && Sequential(c, rule, e) && e.stage == c.Name(k) && e.kind == StageOutput
    ensures At(rule, job, e.jobId, k + 1)
  {
    var l: nat;
    l, job :| EventValue(c, rule, e, l, job);
    c.manifest.StageNameInjective(k, l);
  }

  /** A job with a row past the first stage went through the stage before, which stamped its index. */
  lemma FoldCarriesItsIndex(c: Config, plan: Plan, s: World, jobId: string, pos: nat)
    requires c.Valid() && |plan.handlers| == c.N() && AppendOrder.AppendInv(c, s) && RefineInv(c, StampedFoldRule(plan), s)
    requires 0 < pos < c.N() && c.Key(jobId, pos) in s.db.rows && jobId in plan.seeds
    ensures Fold(plan.handlers, pos, plan.seeds[jobId]).stepIndex == pos
  {
    hide c.Valid, RowsAt, WorkerAt, FeederAt, MessageAt, Sequential, Fold, AppendOrder.AppendInv;
    StageBeforeIsDone(c, s, jobId, pos);
    var events := s.db.events;
    var x :| 0 <= x < |events| && events[x].runId == c.Run() && events[x].jobId == jobId
      && events[x].stage == c.Name(pos - 1) && events[x].kind == StageOutput;
    var _ := LoggedEnvelope(c, StampedFoldRule(plan), events[x], pos - 1);
  }

  /** Past stage 0 the stored envelope of a COMPLETED row is never the fold of its own position: the index gives it away. */
  lemma FinishedIsNotTheInput(c: Config, plan: Plan, s: World, jobId: string, pos: nat)
    requires c.Valid() && |plan.handlers| == c.N() && RoutingInv(c, s) && AppendOrder.AppendInv(c, s) && RefineInv(c, StampedFoldRule(plan), s)
    requires 0 < pos < c.N() && c.Key(jobId, pos) in s.db.rows && s.db.rows[c.Key(jobId, pos)].status == Completed
    ensures jobId in plan.seeds && StoredItem(c, s, jobId, pos).job != Fold(plan.handlers, pos, plan.seeds[jobId])
  {
    hide c.Valid, RoutingInv, AppendOrder.AppendInv, RefineInv;
    StoredIsFold(c, plan, s, jobId, pos);
    FoldCarriesItsIndex(c, plan, s, jobId, pos);
  }

  /**
   * After a run that followed the plan, replaying a stored row keeps every queued envelope at the fold of its position
   * if and only if the row is not COMPLETED. The one exception is at stage 0, for a seed whose index is already 1 and
   * which the first handler returns unchanged.
   */
  lemma ReplayKeepsTheFoldExactly(c: Config, plan: Plan, trace: seq<World>, steps: seq<Step>, t: nat, f: nat, jobId: string, pos: nat)
    requires c.Valid() && |plan.handlers| == c.N() && Execution(c, trace, steps) && Initial(c, trace[0]) && t < |trace|
    requires forall i :: 0 <= i < t ==> FollowsPlan(c, plan, trace[i], steps[i])
    requires pos < c.N() && f < |trace[t].feeders| && trace[t].feeders[f].Resting? && c.Key(jobId, pos) in trace[t].db.rows
    ensures jobId in plan.seeds
    ensures var seed, after := plan.seeds[jobId], Replayed(c, trace[t], f, jobId, pos);
            && Leads(c, trace[t], ReplaySteps(f, jobId, pos), after)
            && WireIsSequential(c, plan, trace[t])
            && (pos > 0 || seed.stepIndex != 1 ==>
                  (WireIsSequential(c, plan, after) <==> trace[t].db.rows[c.Key(jobId, pos)].status != Completed))
            && (pos == 0 ==>
                  (WireIsSequential(c, plan, after)
                   <==> trace[t].db.rows[c.Key(jobId, pos)].status != Completed || plan.handlers[0](seed) == seed))
  {
    hide c.Valid, RoutingInv, RowsAt, WorkerAt, FeederAt, Sequential, Fold, Leads, Fed, ReplaySteps, Enabled, Apply, FollowsPlan, AppendOrder.AppendInv,
      RowShape.ShapeInv, Ledger.LedgerInv, ChainInv, Frontier.ReachInv, Frontier.FrontierInv, CountingInv;
    var s := trace[t];
    RunIsStamped(c, plan, trace, steps, t);
    RunKeepsInv(c, trace, steps, t);
    ReplaysOne(c, s, f, jobId, pos);
    StoredIsFold(c, plan, s, jobId, pos);
    var m := MessageOf(c, StoredItem(c, s, jobId, pos));
    var after := Replayed(c, s, f, jobId, pos);
    assert forall x :: x in s.ready ==> MessageAt(StampedFoldRule(plan), x);
    assert m in after.ready && forall x :: x in after.ready ==> x in s.ready || x == m;
    if s.db.rows[c.Key(jobId, pos)].status == Completed {
      if pos > 0 {
        FinishedIsNotTheInput(c, plan, s, jobId, pos);
      }
      FoldStep(plan, pos, jobId);
      FoldsNothing(plan.handlers, plan.seeds[jobId]);
    }
  }

  /** What replaying a COMPLETED row publishes to a stage is that stage's handler applied to its own input, with the next index. */
  lemma ReplayRepeatsTheHandler(c: Config, plan: Plan, trace: seq<World>, steps: seq<Step>, t: nat, f: nat, jobId: string, pos: nat)
    requires c.Valid() && |plan.handlers| == c.N() && Execution(c, trace, steps) && Initial(c, trace[0]) && t < |trace|
    requires forall i :: 0 <= i < t ==> FollowsPlan(c, plan, trace[i], steps[i])
    requires pos < c.N() && f < |trace[t].feeders| && trace[t].feeders[f].Resting?
    requires c.Key(jobId, pos) in trace[t].db.rows && trace[t].db.rows[c.Key(jobId, pos)].status == Completed
    ensures jobId in plan.seeds
    ensures var before := Fold(plan.handlers, pos, plan.seeds[jobId]);
            var replayed := plan.handlers[pos](before);
            var after := Replayed(c, trace[t], f, jobId, pos);
            && Leads(c, trace[t], ReplaySteps(f, jobId, pos), after)
            && after.ready == trace[t].ready + [Message(c.Queue(pos, replayed.partitionKey), pos, replayed)]
            && replayed.stepIndex == pos + 1 && (pos > 0 ==> before.stepIndex == pos)
  {
    hide c.Valid, RoutingInv, RefineInv, Fold, Leads, Fed, ReplaySteps, Enabled, Apply, FollowsPlan,
      AppendOrder.AppendInv, RowShape.ShapeInv, Ledger.LedgerInv, ChainInv, Frontier.ReachInv, Frontier.FrontierInv, CountingInv;
    RunIsStamped(c, plan, trace, steps, t);
    RunKeepsInv(c, trace, steps, t);
    ReplaysOne(c, trace[t], f, jobId, pos);
    StoredIsFold(c, plan, trace[t], jobId, pos);
    FoldStep(plan, pos, jobId);
    if pos > 0 {
      FoldCarriesItsIndex(c, plan, trace[t], jobId, pos);
    }
  }

  /** Whatever the handlers return, replaying a COMPLETED row puts an envelope in a queue whose step index is not the queue's position. */
  lemma ReplayOfCompletedMisstamps(c: Config, trace: seq<World>, steps: seq<Step>, t: nat, f: nat, jobId: string, pos: nat)
    requires c.Valid() && Execution(c, trace, steps) && Initial(c, trace[0]) && t < |trace|
    requires forall i :: 0 <= i < t ==> KeepsStamps(c, trace[i], steps[i])
    requires pos < c.N() && f < |trace[t].feeders| && trace[t].feeders[f].Resting?
    requires c.Key(jobId, pos) in trace[t].db.rows && trace[t].db.rows[c.Key(jobId, pos)].status == Completed
    ensures var job, after := StoredItem(c, trace[t], jobId, pos).job, Replayed(c, trace[t], f, jobId, pos);
            && Leads(c, trace[t], ReplaySteps(f, jobId, pos), after)
            && Message(c.Queue(pos, job.partitionKey), pos, job) in after.ready
            && job.stepIndex == pos + 1
  {
    hide c.Valid, RoutingInv, RefineInv, Leads, Fed, ReplaySteps, Enabled, Apply, KeepsStamps, Faithful,
      AppendOrder.AppendInv, RowShape.ShapeInv, Ledger.LedgerInv, ChainInv, Frontier.ReachInv, Frontier.FrontierInv, CountingInv;
    forall i | 0 <= i < t ensures Faithful(c, StampRule(), trace[i], steps[i]) {
      StampsAreFaithful(c, trace[i], steps[i]);
    }
    RunRefines(c, StampRule(), trace, steps, t);
    RunKeepsInv(c, trace, steps, t);
    ReplayOfCompletedReapplies(c, StampRule(), trace[t], f, jobId, pos);
  }

  // ---------------------------------------------------------------- seeding one job

  ghost predicate GetsTo(c: Config, s: World, s': World) {
    exists steps :: Leads(c, s, steps, s')
  }

  lemma GetsOn(c: Config, s: World, mid: World, s': World)
    requires GetsTo(c, s, mid) && GetsTo(c, mid, s')
    ensures GetsTo(c, s, s')
  {
    hide Leads;
    var first :| Leads(c, s, first, mid);
    var second :| Leads(c, mid, second, s');
    LeadsOn(c, s, first, mid, second, s');
  }

  lemma GetsOneStep(c: Config, s: World, step: Step)
    requires Enabled(c, s, step)
    ensures GetsTo(c, s, Apply(c, s, step))
  {
    hide Enabled, Apply;
    NoStep(c, Apply(c, s, step));
    OneStep(c, s, step, Apply(c, s, step), [], Apply(c, s, step));
  }

  lemma GetsWorked(c: Config, s: World, w: nat, actions: seq<WorkerAction>, s': World)
    requires Performs(c, s, w, actions, s')
    ensures GetsTo(c, s, s')
  {
    hide Performs, Leads;
    WorkLeads(c, s, w, actions, s');
  }

  ghost predicate OwnJob(c: Config, job: Job) {
    job.runId == c.Run() && job.pipelineId == c.manifest.pipelineId
  }

  /** One job seeded in a fresh run, with its batch reported published or failed. */
  function Seeded(c: Config, s: World, f: nat, job: Job, status: BatchStatus): World
    requires c.Valid() && f < |s.feeders|
  {
    var fed := Fed(c, s, f, Item(0, job.Resolve()), None);
    fed.(db := fed.db.(batches := [SeedBatch(c.Run(), [job.jobId], 1, status)])).SetFeeder(f, Resting)
  }

  lemma OneJobSeedable(c: Config, s: World, job: Job)
    requires c.Valid() && OwnJob(c, job) && job.jobId !in ActiveIds(s.db.batches, c.Run())
    ensures Seedable(c, s, [job]) && JobIds([job]) == [job.jobId] && FirstStageItems([job]) == [Item(0, job.Resolve())]
  {
  }

  lemma SeedsOne(c: Config, s: World, f: nat, job: Job, fails: bool)
    requires c.Valid() && Initial(c, s) && f < |s.feeders| && OwnJob(c, job)
    ensures GetsTo(c, s, Seeded(c, s, f, job, if fails then FailedBatch else Published))
  {
    hide Leads, GetsTo, Upsert, c.Valid, Fed, Seedable, JobIds, FirstStageItems, ActiveIds, FeedSteps;
    assert ActiveIds(s.db.batches, c.Run()) == {} by { NoActiveIds(c.Run()); }
    OneJobSeedable(c, s, job);
    var item := Item(0, job.Resolve());
    var batches := [SeedBatch(c.Run(), [job.jobId], 1, Created)];
    var s1 := s.(db := s.db.(batches := batches)).SetFeeder(f, Feeding(Some(0), {}, [item], []));
    assert [] + batches == batches;
    assert Apply(c, s, AtFeeder(f, Seed([job]))) == s1;
    GetsOneStep(c, s, AtFeeder(f, Seed([job])));
    FirstStage(c);
    FeedsOne(c, s1, f, item, Some(0));
    var s2 := Fed(c, s1, f, item, Some(0));
    assert GetsTo(c, s1, s2) by { assert Leads(c, s1, FeedSteps(f), s2); LeadsGets(c, s1, FeedSteps(f), s2); }
    GetsOn(c, s, s1, s2);
    SeedCloses(c, s, s1, f, item, batches, fails);
    var step := AtFeeder(f, if fails then FailFeed else FinishFeed);
    GetsOneStep(c, s2, step);
    GetsOn(c, s, s2, Apply(c, s2, step));
  }

  lemma LeadsGets(c: Config, s: World, steps: seq<Step>, s': World)
    requires Leads(c, s, steps, s')
    ensures GetsTo(c, s, s')
  {
    hide Leads;
  }

  lemma NoActiveIds(runId: string)
    ensures ActiveIds([], runId) == {}
  {
  }

  lemma FirstStage(c: Config)
    requires c.Valid()
    ensures c.N() > 0
  {
  }

  lemma SeedCloses(c: Config, s: World, s1: World, f: nat, item: Item, batches: seq<SeedBatch>, fails: bool)
    requires c.Valid() && item.pos == 0 < c.N() && f < |s.feeders|
    requires |batches| == 1 && s1 == s.(db := s.db.(batches := batches)).SetFeeder(f, Feeding(Some(0), {}, [item], []))
    ensures var s2 := Fed(c, s1, f, item, Some(0));
            var step := AtFeeder(f, if fails then FailFeed else FinishFeed);
            var fed := Fed(c, s, f, item, None);
            && Enabled(c, s2, step)
            && Apply(c, s2, step)
               == fed.(db := fed.db.(batches := [batches[0].(status := if fails then FailedBatch else Published)])).SetFeeder(f, Resting)
  {
    hide c.Valid, Upsert, c.Queue, c.manifest.PartitionQueueSet;
    assert batches[0 := batches[0].(status := if fails then FailedBatch else Published)]
        == [batches[0].(status := if fails then FailedBatch else Published)];
  }

  // ---------------------------------------------------------------- two failures that overlap

  function FailActions(i: nat, job: Job, detail: string): seq<WorkerAction> {
    [Deliver(i)] + ([CheckHold] + ([WriteRunning] + ([AppendStarted] + ([HandlerRaises(job, detail)] + ([CountAttempts] + [])))))
  }

  /** A delivery whose handler failed and whose attempts have been counted, but not inserted. */
  function FailedAndCounted(c: Config, s: World, w: nat, i: nat, detail: string): World
    requires w < |s.workers| && w < |c.slots| && i < |s.ready|
  {
    var m := s.ready[i];
    var name := c.Name(c.slots[w].stage);
    Put(s.(ready := Without(s.ready, i)),
        Documents.Append(MarkRunning(s.db, m.job, name, m.queue), StartedEvent(m.job, name)), w,
        Worker(Some(m), [], Counted(m.job, detail, LedgerSize(s.db.attempts, KeyOf(m.job, name)))))
  }

  lemma FailsAndCounts(c: Config, s: World, w: nat, i: nat, detail: string)
    requires w < |s.workers| && w < |c.slots| && c.slots[w].stage < c.N() && i < |s.ready| && s.workers[w] == IDLE_WORKER
    requires Subscribed(c, w, s.ready[i].queue) && s.ready[i].job.Resolve() == s.ready[i].job && s.db.holds == []
    ensures Performs(c, s, w, FailActions(i, s.ready[i].job, detail), FailedAndCounted(c, s, w, i, detail))
  {
    hide Performs, Upsert, LedgerSize, Subscribed, DerivePartitionKey;
    var m := s.ready[i];
    var job := m.job;
    var name := c.Name(c.slots[w].stage);
    var taken := s.(ready := Without(s.ready, i));
    var s1 := Put(taken, s.db, w, Worker(Some(m), [], Received(job)));
    var s2 := Put(taken, s.db, w, Worker(Some(m), [], Clear(job)));
    StartsStage(c, s2, w, m, job);
    var running := MarkRunning(s.db, job, name, m.queue);
    var started := Documents.Append(running, StartedEvent(job, name));
    var s3 := Put(taken, running, w, Worker(Some(m), [], MarkedRunning(job)));
    var s4 := Put(taken, started, w, Worker(Some(m), [], Started(job)));
    var s5 := Put(taken, started, w, Worker(Some(m), [], HandlerRaised(job, detail)));
    var s6 := FailedAndCounted(c, s, w, i, detail);
    assert Put(s2, running, w, Worker(Some(m), [], MarkedRunning(job))) == s3;
    assert Put(s2, started, w, Worker(Some(m), [], Started(job))) == s4;
    assert WorkerDoes(c, s, w, Deliver(i)) == s1;
    assert WorkerDoes(c, s1, w, CheckHold) == s2;
    assert WorkerDoes(c, s4, w, HandlerRaises(job, detail)) == s5;
    assert WorkerDoes(c, s5, w, CountAttempts) == s6;
    NoMore(c, s6, w);
    Then(c, s5, w, CountAttempts, s6, [], s6);
    Then(c, s4, w, HandlerRaises(job, detail), s5, [CountAttempts] + [], s6);
    Then(c, s3, w, AppendStarted, s4, [HandlerRaises(job, detail)] + ([CountAttempts] + []), s6);
    Then(c, s2, w, WriteRunning, s3, [AppendStarted] + ([HandlerRaises(job, detail)] + ([CountAttempts] + [])), s6);
    Then(c, s1, w, CheckHold, s2, [WriteRunning] + ([AppendStarted] + ([HandlerRaises(job, detail)] + ([CountAttempts] + []))), s6);
    Then(c, s, w, Deliver(i), s1, FailActions(i, job, detail)[1..], s6);
    assert FailActions(i, job, detail)[1..] == [CheckHold] + ([WriteRunning] + ([AppendStarted] + ([HandlerRaises(job, detail)] + ([CountAttempts] + []))));
  }

  /** Both connections count before either inserts: the attempts get one number twice. */
  lemma BothCountThenInsert(c: Config, s: World, w: nat, v: nat, detail: string)
    requires w != v && w < |s.workers| && v < |s.workers| && |s.workers| == |c.slots|
    requires c.slots[w].stage == c.slots[v].stage < c.N()
    requires s.workers[w] == IDLE_WORKER && s.workers[v] == IDLE_WORKER
    requires |s.ready| == 2 && s.ready[0] == s.ready[1] && s.ready[0].job.Resolve() == s.ready[0].job && s.db.holds == []
    requires Subscribed(c, w, s.ready[0].queue) && Subscribed(c, v, s.ready[0].queue)
    ensures exists s' ::
              && GetsTo(c, s, s')
              && var job := s.ready[0].job;
                 var key := KeyOf(job, c.Name(c.slots[w].stage));
                 var n := LedgerSize(s.db.attempts, key) + 1;
                 var e := Attempt(key, job.partitionKey, job.targetTags, n, ActionFor(n, c.maxAttempts), detail);
                 s'.db.attempts == s.db.attempts + [e] + [e]
  {
    hide Performs, LedgerSize, Subscribed, GetsTo, DerivePartitionKey, FailedAndCounted, FailActions, WorkerDoes;
    var job := s.ready[0].job;
    var s1 := FailedAndCounted(c, s, w, 0, detail);
    FailsAndCounts(c, s, w, 0, detail);
    GetsWorked(c, s, w, FailActions(0, job, detail), s1);
    CountedState(c, s, w, v, detail);
    assert Without(s.ready, 0) == [s.ready[1]];
    var s2 := FailedAndCounted(c, s1, v, 0, detail);
    FailsAndCounts(c, s1, v, 0, detail);
    GetsWorked(c, s1, v, FailActions(0, job, detail), s2);
    CountedState(c, s1, v, w, detail);
    GetsOn(c, s, s1, s2);
    var s3 := Apply(c, s2, AtWorker(w, AddAttempt));
    GetsOneStep(c, s2, AtWorker(w, AddAttempt));
    InsertsCounted(c, s2, w);
    GetsOn(c, s, s2, s3);
    WorkerFrame(c, s2, w, AddAttempt);
    assert s3.workers[v] == s2.workers[v];
    var s4 := Apply(c, s3, AtWorker(v, AddAttempt));
    GetsOneStep(c, s3, AtWorker(v, AddAttempt));
    InsertsCounted(c, s3, v);
    GetsOn(c, s, s3, s4);
  }

  lemma InsertsCounted(c: Config, s: World, w: nat)
    requires WorkerCan(c, s, w, AddAttempt)
    ensures var phase := s.workers[w].phase;
            var n := phase.count + 1;
            WorkerDoes(c, s, w, AddAttempt).db.attempts
            == s.db.attempts + [Attempt(KeyOf(phase.job, c.Name(c.slots[w].stage)), phase.job.partitionKey, phase.job.targetTags, n,
                                        ActionFor(n, c.maxAttempts), phase.detail)]
  {
  }

  lemma CountedState(c: Config, s: World, w: nat, other: nat, detail: string)
    requires w != other && w < |s.workers| && other < |s.workers| && |s.workers| == |c.slots| && s.ready != []
    ensures var s' := FailedAndCounted(c, s, w, 0, detail);
            && s'.ready == Without(s.ready, 0) && s'.db.attempts == s.db.attempts && s'.db.holds == s.db.holds
            && |s'.workers| == |s.workers| && s'.workers[other] == s.workers[other]
            && s'.workers[w].phase == Counted(s.ready[0].job, detail,
                                              LedgerSize(s.db.attempts, KeyOf(s.ready[0].job, c.Name(c.slots[w].stage))))
  {
    hide LedgerSize, Upsert;
  }

  /**
   * With two attempts allowed, one job, seeded once and replayed while still PENDING, and two connections of the first
   * stage reach a state with two retried attempts, both numbered 1: more retries than the limit allows.
   */
  lemma OverlapBreaksTheBound(c: Config, s: World, f: nat, w: nat, v: nat, job: Job, detail: string)
    requires c.Valid() && Initial(c, s) && c.maxAttempts == 2 && f < |s.feeders| && OwnJob(c, job)
    requires w != v && w < |c.slots| && v < |c.slots| && c.slots[w].stage == c.slots[v].stage == 0
    requires job.Resolve().partitionKey in c.slots[w].partitions && job.Resolve().partitionKey in c.slots[v].partitions
    ensures exists s' :: Reachable(c, s')
                         && RetryEntries(s'.db.attempts, c.Key(job.jobId, 0)) == 2 > RetryLimit(c)
                         && !Upto(Numbers(s'.db.attempts, c.Key(job.jobId, 0)))
  {
    hide Performs, LedgerSize, Subscribed, GetsTo, Leads, DerivePartitionKey, c.Valid, Initial, Reachable, RetryEntries, Numbers;
    var s2 := QueuedTwice(c, s, f, job);
    FirstStage(c);
    SubscribesTo(c, w, job.Resolve().partitionKey);
    SubscribesTo(c, v, job.Resolve().partitionKey);
    ResolveIsStable(job, job.Resolve());
    BothCountThenInsert(c, s2, w, v, detail);
    var key := c.Key(job.jobId, 0);
    var n := LedgerSize(s2.db.attempts, key) + 1;
    var e := Attempt(key, job.Resolve().partitionKey, job.Resolve().targetTags, n, ActionFor(n, c.maxAttempts), detail);
    var s3 :| GetsTo(c, s2, s3) && s3.db.attempts == s2.db.attempts + [e] + [e];
    GetsOn(c, s, s2, s3);
    InitialIsReachable(c, s);
    ReachableOn(c, s, s3);
    TwiceCounts(e, key);
  }

  lemma ReachableOn(c: Config, s: World, s': World)
    requires c.Valid() && Reachable(c, s) && GetsTo(c, s, s')
    ensures Reachable(c, s')
  {
    hide c.Valid, Leads, Reachable;
    var steps :| Leads(c, s, steps, s');
    ReachesOn(c, s, steps, s');
  }

  lemma TwiceCounts(e: Attempt, key: RowKey)
    requires e.key == key && e.number == LedgerSize([], key) + 1
    ensures e.action == Retry ==> RetryEntries([] + [e] + [e], key) == 2
    ensures e.number == 1 && !Upto(Numbers([] + [e] + [e], key))
  {
    EntryCounts([], e, key);
    EntryCounts([] + [e], e, key);
    var numbers := Numbers([] + [e] + [e], key);
    assert numbers[1] == 1;
  }

  lemma SubscribesTo(c: Config, w: nat, key: string)
    requires c.Valid() && w < |c.slots| && key in c.slots[w].partitions
    ensures Subscribed(c, w, c.Queue(c.slots[w].stage, key))
  {
    InputQueueOf(c, c.slots[w].stage, key);
  }

  /** Seeding a job and replaying its PENDING row queues it twice. */
  lemma QueuedTwice(c: Config, s: World, f: nat, job: Job) returns (s': World)
    requires c.Valid() && Initial(c, s) && f < |s.feeders| && OwnJob(c, job)
    ensures c.N() > 0 && GetsTo(c, s, s')
    ensures s'.ready == [MessageOf(c, Item(0, job.Resolve())), MessageOf(c, Item(0, job.Resolve()))]
    ensures |s'.workers| == |c.slots| && s'.db.attempts == [] && s'.db.holds == []
    ensures forall x :: 0 <= x < |s'.workers| ==> s'.workers[x] == IDLE_WORKER
  {
    hide GetsTo, Leads, DerivePartitionKey, c.Valid, ReplaySteps;
    FirstStage(c);
    var item := Item(0, job.Resolve());
    var s1 := Seeded(c, s, f, job, Published);
    SeedsOne(c, s, f, job, false);
    SeedQueues(c, s, f, job, Published);
    s' := Replayed(c, s1, f, job.jobId, 0);
    ReplaysOne(c, s1, f, job.jobId, 0);
    LeadsGets(c, s1, ReplaySteps(f, job.jobId, 0), s');
    GetsOn(c, s, s1, s');
    assert job.Resolve().Resolve() == job.Resolve();
    assert StoredItem(c, s1, job.jobId, 0) == item;
  }

  lemma SeedQueues(c: Config, s: World, f: nat, job: Job, status: BatchStatus)
    requires c.Valid() && Initial(c, s) && f < |s.feeders| && OwnJob(c, job)
    ensures c.N() > 0
    ensures var s1 := Seeded(c, s, f, job, status);
            && s1.ready == [MessageOf(c, Item(0, job.Resolve()))] && s1.feeders[f].Resting? && |s1.feeders| == |s.feeders|
            && s1.workers == s.workers && s1.taps == s.taps && s1.db.attempts == [] && s1.db.holds == [] && s1.db.events == []
            && s1.db.batches == [SeedBatch(c.Run(), [job.jobId], 1, status)]
            && Declared(c, s1.declared, job.Resolve().partitionKey)
            && c.Key(job.jobId, 0) in s1.db.rows && s1.db.rows[c.Key(job.jobId, 0)].job == job.Resolve()
  {
    hide DerivePartitionKey, c.Valid;
    FirstStage(c);
    var key := job.Resolve().partitionKey;
    QueueDeclared(c, s.declared + c.manifest.PartitionQueueSet(key), 0, key);
  }

  // ---------------------------------------------------------------- the sequential result is reached

  /** Handlers that keep the identity and stamp the next index. */
  ghost predicate Honest(handlers: seq<Job -> Job>) {
    forall k, x: Job :: 0 <= k < |handlers| ==> x.KeepsIdentity(handlers[k](x)) && handlers[k](x).stepIndex == k + 1
  }

  predicate ServesStage(c: Config, key: string, k: nat) {
    exists w :: 0 <= w < |c.slots| && c.slots[w].stage == k && key in c.slots[w].partitions
  }

  /** Each stage has a connection for this partition. */
  ghost predicate Serves(c: Config, key: string) {
    forall k: nat :: k < c.N() ==> ServesStage(c, key, k)
  }

  /** One message, at this position, and nothing else going on. */
  ghost predicate Waiting(c: Config, s: World, m: Message)
    requires c.Valid()
  {
    && s.ready == [m] && m.pos <= c.N() && m == MessageOf(c, Item(m.pos, m.job))
    && JobOk(c, m.job) && Declared(c, s.declared, m.job.partitionKey) && s.db.holds == []
    && |s.workers| == |c.slots| && forall w :: 0 <= w < |s.workers| ==> s.workers[w] == IDLE_WORKER
  }

  /** What forwarding leaves alone. */
  ghost predicate Aside(c: Config, s: World, s': World) {
    && s'.taps == s.taps && s'.feeders == s.feeders && s'.db.batches == s.db.batches
    && TerminalIds(s'.db.events, c.Run()) == TerminalIds(s.db.events, c.Run())
  }

  function Succeeding(h: Job -> Job): Handler {
    (job: Job) => Returned(h(job))
  }

  function SettingsOf(c: Config, k: nat): StageSettings {
    StageSettings(c.Name(k), true, c.maxAttempts, c.retryDelay)
  }

  /** One delivery, callback and acknowledgement of connection w. */
  lemma StageForwards(c: Config, s: World, w: nat, m: Message, h: Job -> Job) returns (s': World)
    requires c.Valid() && Waiting(c, s, m) && m.pos < c.N()
    requires w < |c.slots| && c.slots[w].stage == m.pos && m.job.partitionKey in c.slots[w].partitions
    requires m.job.KeepsIdentity(h(m.job)) && h(m.job).stepIndex == m.pos + 1
    ensures GetsTo(c, s, s') && Aside(c, s, s') && Waiting(c, s', MessageOf(c, Item(m.pos + 1, h(m.job))))
  {
    hide GetsTo, Leads, Performs, DerivePartitionKey, c.Valid, CallActions, Upsert, Subscribed, TerminalIds;
    var k := m.pos;
    var stage := SettingsOf(c, k);
    SubscribesTo(c, w, m.job.partitionKey);
    var s1 := s.(ready := []).SetWorker(w, Worker(Some(m), [], Received(m.job)));
    assert Without([m], 0) == [];
    assert Apply(c, s, AtWorker(w, Deliver(0))) == s1;
    GetsOneStep(c, s, AtWorker(w, Deliver(0)));
    CallbackIsProtocolSteps(c, s1, w, m, stage, Succeeding(h), false);
    var call := CallEffect(stage, RouterOf(c, stage.name), Succeeding(h), false, s1.db, s1.now, m.job, m.queue);
    s' := Settle(s1, w, m, call);
    GetsWorked(c, s1, w, CallActions(stage, Succeeding(h), false, s1.db, s1.now, m.job), s');
    GetsOn(c, s, s1, s');
    CallForwards(c, s1, k, m, h);
    Settles1(c, s, w, m, h, call);
  }

  /** What the callback of a succeeding handler does, as far as forwarding is concerned. */
  lemma CallForwards(c: Config, s: World, k: nat, m: Message, h: Job -> Job)
    requires c.Valid() && m.pos == k < c.N() && s.db.holds == [] && m.job.Resolve() == m.job && m.job.KeepsIdentity(h(m.job))
    ensures var call := CallEffect(SettingsOf(c, k), RouterOf(c, c.Name(k)), Succeeding(h), false, s.db, s.now, m.job, m.queue);
            && |call.sent| == 2 && call.sent[1].AckDelivery?
            && call.sent[0].PublishJob? && call.sent[0].queue == c.Queue(k + 1, m.job.partitionKey) && call.sent[0].job == h(m.job)
            && call.db.batches == s.db.batches && call.db.holds == s.db.holds
            && TerminalIds(call.db.events, c.Run()) == TerminalIds(s.db.events, c.Run())
  {
    hide TerminalIds, Upsert;
    c.manifest.RoutesChain(k, m.job.partitionKey);
    TerminalIdsGrow(s.db.events, StartedEvent(m.job, c.Name(k)), c.Run());
    TerminalIdsGrow(s.db.events + [StartedEvent(m.job, c.Name(k))], OutputEvent(h(m.job), c.Name(k)), c.Run());
  }

  lemma Settles1(c: Config, s: World, w: nat, m: Message, h: Job -> Job, call: Called)
    requires c.Valid() && Waiting(c, s, m) && m.pos < c.N() && w < |s.workers| && m.job.KeepsIdentity(h(m.job))
    requires |call.sent| == 2 && call.sent[1].AckDelivery?
    requires call.sent[0].PublishJob? && call.sent[0].queue == c.Queue(m.pos + 1, m.job.partitionKey) && call.sent[0].job == h(m.job)
    requires call.db.batches == s.db.batches && call.db.holds == s.db.holds
    requires TerminalIds(call.db.events, c.Run()) == TerminalIds(s.db.events, c.Run())
    ensures var s' := Settle(s.(ready := []).SetWorker(w, Worker(Some(m), [], Received(m.job))), w, m, call);
            Aside(c, s, s') && Waiting(c, s', MessageOf(c, Item(m.pos + 1, h(m.job))))
  {
    hide c.Valid, TerminalIds, DerivePartitionKey;
    ResolveIsStable(m.job, h(m.job));
    QueueDeclared(c, s.declared, m.pos + 1, m.job.partitionKey);
  }

  /** A waiting message gets through the remaining stages, becoming the fold. */
  lemma {:induction false} ForwardsAll(c: Config, s: World, m: Message, handlers: seq<Job -> Job>, seed: Job) returns (s': World)
    requires c.Valid() && |handlers| == c.N() && Honest(handlers) && Serves(c, m.job.partitionKey)
    requires Waiting(c, s, m) && m.job == Fold(handlers, m.pos, seed) && m.job.jobId == seed.jobId
    ensures GetsTo(c, s, s') && Aside(c, s, s') && Fold(handlers, c.N(), seed).jobId == seed.jobId
    ensures Waiting(c, s', MessageOf(c, Item(c.N(), Fold(handlers, c.N(), seed))))
    decreases c.N() - m.pos
  {
    hide GetsTo, Leads, c.Valid, Waiting, TerminalIds, DerivePartitionKey;
    if m.pos == c.N() {
      s' := s;
      assert Waiting(c, s, m) ==> m == MessageOf(c, Item(m.pos, m.job)) by { WaitingIsAt(c, s, m); }
      StaysPut(c, s);
    } else {
      WaitingIsAt(c, s, m);
      assert ServesStage(c, m.job.partitionKey, m.pos);
      var w :| 0 <= w < |c.slots| && c.slots[w].stage == m.pos && m.job.partitionKey in c.slots[w].partitions;
      var h := handlers[m.pos];
      var s1 := StageForwards(c, s, w, m, h);
      s' := ForwardsAll(c, s1, MessageOf(c, Item(m.pos + 1, h(m.job))), handlers, seed);
      GetsOn(c, s, s1, s');
    }
  }

  lemma WaitingIsAt(c: Config, s: World, m: Message)
    requires c.Valid() && Waiting(c, s, m)
    ensures m.pos <= c.N() && m == MessageOf(c, Item(m.pos, m.job))
  {
  }

  lemma StaysPut(c: Config, s: World)
    ensures GetsTo(c, s, s)
  {
    NoStep(c, s);
  }

  /** A tap takes the finished message, records it and acknowledges it. */
  lemma TapFinishes(c: Config, s: World, t: nat, m: Message) returns (s': World)
    requires c.Valid() && Waiting(c, s, m) && m.pos == c.N() && t < |s.taps| && s.taps[t] == OFF_TAP
    requires TerminalIds(s.db.events, c.Run()) == {}
    ensures GetsTo(c, s, s') && s'.feeders == s.feeders && s'.db.batches == s.db.batches
    ensures TerminalIds(s'.db.events, c.Run()) == {m.job.jobId}
    ensures TerminalOf(m.job, TERMINAL_STAGE) in s'.db.events
  {
    hide GetsTo, Leads, TapPerforms, DerivePartitionKey, c.Valid, TerminalIds, ExpectedCount, Upsert, TerminalRows, FlushActions, Watched;
    var key := m.job.partitionKey;
    var s1 := Apply(c, s, Step.AtTap(t, StartTap({key})));
    GetsOneStep(c, s, Step.AtTap(t, StartTap({key})));
    var s2 := Apply(c, s1, Step.AtTap(t, CheckStart));
    GetsOneStep(c, s1, Step.AtTap(t, CheckStart));
    GetsOn(c, s, s1, s2);
    WatchesFinal(c, s2.taps[t], m);
    var s3 := Apply(c, s2, Step.AtTap(t, TapReceives(0)));
    GetsOneStep(c, s2, Step.AtTap(t, TapReceives(0)));
    GetsOn(c, s, s2, s3);
    assert s3.taps[t].held == [m] && s3.db == s.db;
    FlushIsProtocolSteps(c, s3, t);
    var batch := Deliveries([m]);
    assert batch == [Delivery(m.job, m.queue)];
    var known := s3.taps[t].known + BatchIds(batch);
    s' := PutTap(s3, RecordTerminalsIn(s3.db, batch, TERMINAL_STAGE), s3.settled + BatchIds(batch), t,
                 Tap(s3.taps[t].partitions, Collecting, [], known, s3.taps[t].done || |known| >= ExpectedCount(s3.db.batches, c.Run())));
    TapWorkLeads(c, s3, t, FlushActions(|batch|), s');
    LeadsGets(c, s3, AtEachTap(t, FlushActions(|batch|)), s');
    GetsOn(c, s, s3, s');
    RecordingAddsIds(s.db, batch, TERMINAL_STAGE, c.Run());
    RowsLeaveTheRest(s.db, batch, TERMINAL_STAGE);
    assert TerminalEvents(batch, TERMINAL_STAGE)[0] == TerminalOf(m.job, TERMINAL_STAGE);
    assert BatchIds(batch) == {m.job.jobId};
  }

  lemma WatchesFinal(c: Config, tap: Tap, m: Message)
    requires c.Valid() && m.pos == c.N() && m == MessageOf(c, Item(m.pos, m.job)) && m.job.partitionKey in tap.partitions
    ensures Watched(c, tap, m.queue)
  {
    c.manifest.RoutesChain(c.N() - 1, m.job.partitionKey);
  }

  /** One seeded job goes through the whole pipeline and is recorded. */
  lemma OneJobFinishes(c: Config, handlers: seq<Job -> Job>, s: World, f: nat, t: nat, job: Job, fails: bool) returns (s': World)
    requires c.Valid() && Initial(c, s) && f < |s.feeders| && t < |s.taps| && OwnJob(c, job)
    requires |handlers| == c.N() && Honest(handlers) && Serves(c, job.Resolve().partitionKey)
    ensures GetsTo(c, s, s') && |s'.feeders| == |s.feeders| && s'.feeders[f].Resting?
    ensures s'.db.batches == [SeedBatch(c.Run(), [job.jobId], 1, if fails then FailedBatch else Published)]
    ensures TerminalIds(s'.db.events, c.Run()) == {job.jobId}
    ensures TerminalOf(Fold(handlers, c.N(), job.Resolve()), TERMINAL_STAGE) in s'.db.events
  {
    hide GetsTo, Leads, DerivePartitionKey, c.Valid, TerminalIds, Waiting, Fold, Seeded, Honest, Serves;
    FirstStage(c);
    var status := if fails then FailedBatch else Published;
    var s1 := Seeded(c, s, f, job, status);
    SeedsOne(c, s, f, job, fails);
    SeedWaits(c, s, f, job, status);
    FoldsNothing(handlers, job.Resolve());
    var s2 := ForwardsAll(c, s1, MessageOf(c, Item(0, job.Resolve())), handlers, job.Resolve());
    GetsOn(c, s, s1, s2);
    s' := TapFinishes(c, s2, t, MessageOf(c, Item(c.N(), Fold(handlers, c.N(), job.Resolve()))));
    GetsOn(c, s, s2, s');
  }

  lemma FoldsNothing(handlers: seq<Job -> Job>, job: Job)
    ensures Fold(handlers, 0, job) == job
  {
  }

  lemma SeedWaits(c: Config, s: World, f: nat, job: Job, status: BatchStatus)
    requires c.Valid() && Initial(c, s) && f < |s.feeders| && OwnJob(c, job)
    ensures c.N() > 0
    ensures var s1 := Seeded(c, s, f, job, status);
            && Waiting(c, s1, MessageOf(c, Item(0, job.Resolve()))) && s1.taps == s.taps
            && |s1.feeders| == |s.feeders| && s1.feeders[f].Resting?
            && TerminalIds(s1.db.events, c.Run()) == {} && s1.db.batches == [SeedBatch(c.Run(), [job.jobId], 1, status)]
  {
    hide c.Valid, DerivePartitionKey, Seeded;
    SeedQueues(c, s, f, job, status);
    ResolveIsStable(job, job.Resolve());
  }

  /** For every plan of honest handlers and every served job there is a run whose TERMINAL event carries the sequential result. */
  lemma SequentialResultIsReached(c: Config, handlers: seq<Job -> Job>, s: World, f: nat, t: nat, job: Job)
    requires c.Valid() && Initial(c, s) && f < |s.feeders| && t < |s.taps| && OwnJob(c, job)
    requires |handlers| == c.N() && Honest(handlers) && Serves(c, job.Resolve().partitionKey)
    ensures exists s' :: Reachable(c, s') && Confirmed(c, s') && ActiveJobs(c, s') == TerminalJobs(c, s') == {job.jobId}
                         && TerminalOf(Fold(handlers, c.N(), job.Resolve()), TERMINAL_STAGE) in s'.db.events
  {
    hide GetsTo, c.Valid, TerminalIds, Reachable, Fold, Honest, Serves, DerivePartitionKey, Initial, ActiveIds, ExpectedCount;
    var s' := OneJobFinishes(c, handlers, s, f, t, job, false);
    InitialIsReachable(c, s);
    ReachableOn(c, s, s');
    OneBatch(c.Run(), job.jobId, Published);
  }

  lemma OneBatch(runId: string, id: string, status: BatchStatus)
    ensures var batches := [SeedBatch(runId, [id], 1, status)];
            && ActiveIds(batches, runId) == (if status == FailedBatch then {} else {id})
            && ExpectedCount(batches, runId) == if status == FailedBatch then 0 else 1
  {
    var batches := [SeedBatch(runId, [id], 1, status)];
    assert batches[..0] == [];
    if status != FailedBatch {
      ActiveIdIsCounted(batches, runId, 0, id);
    }
  }

  lemma TwoBatches(runId: string, first: string, second: string)
    ensures var batches := [SeedBatch(runId, [first], 1, FailedBatch)] + [SeedBatch(runId, [second], 1, Created)];
            ActiveIds(batches, runId) == {second} && ExpectedCount(batches, runId) == 1
  {
    var batches := [SeedBatch(runId, [first], 1, FailedBatch)] + [SeedBatch(runId, [second], 1, Created)];
    assert batches[..1] == [SeedBatch(runId, [first], 1, FailedBatch)];
    OneBatch(runId, first, FailedBatch);
    ActiveIdsSplit(batches, runId);
    assert IdSet([second]) == {second} by { assert [second][0] == second; }
  }

  /**
   * A seeding that reports a failure after its one job was published, then another job seeded: the run reaches a state
   * in which the count is met while the only active job is not recorded.
   */
  lemma EscapedJobMisleads(c: Config, handlers: seq<Job -> Job>, s: World, f: nat, t: nat, job: Job, other: Job)
    requires c.Valid() && Initial(c, s) && f < |s.feeders| && t < |s.taps| && OwnJob(c, job) && OwnJob(c, other)
    requires other.jobId != job.jobId
    requires |handlers| == c.N() && Honest(handlers) && Serves(c, job.Resolve().partitionKey)
    ensures exists s' :: Reachable(c, s') && Confirmed(c, s') && TerminalJobs(c, s') == {job.jobId} && ActiveJobs(c, s') == {other.jobId}
  {
    hide GetsTo, c.Valid, TerminalIds, Reachable, Fold, Honest, Serves, DerivePartitionKey, Initial, ActiveIds, ExpectedCount, Seedable, JobIds, FirstStageItems;
    var s1 := OneJobFinishes(c, handlers, s, f, t, job, true);
    OneBatch(c.Run(), job.jobId, FailedBatch);
    OneJobSeedable(c, s1, other);
    var s2 := Apply(c, s1, AtFeeder(f, Seed([other])));
    GetsOneStep(c, s1, AtFeeder(f, Seed([other])));
    GetsOn(c, s, s1, s2);
    InitialIsReachable(c, s);
    ReachableOn(c, s, s2);
    TwoBatches(c.Run(), job.jobId, other.jobId);
  }

  // ---------------------------------------------------------------- nothing is assumed away

  /** Every set-up pipeline with distinct, unreserved stage names and any fleet of worker connections is covered. */
  lemma EverySetupIsCovered(m: RunManifest, slots: seq<Slot>, maxAttempts: int, retryDelay: int, batchSize: int)
    requires m.WellFormed()
    requires forall i, j :: 0 <= i < j < |m.stages| ==> m.stages[i].name != m.stages[j].name
    requires forall i :: 0 <= i < |m.stages| ==> m.stages[i].name != "terminal"
    requires forall w :: 0 <= w < |slots| ==> slots[w].stage < |m.stages|
    ensures Config(m, slots, maxAttempts, retryDelay, batchSize).Valid()
  {
  }

  /** Any number of taps and of seeding and replay processes may join, at any time. */
  lemma AnyNumberMayJoin(c: Config, now: int, taps: nat, feeders: nat)
    requires c.Valid()
    ensures Initial(c, World(EMPTY_DB, now, [], c.manifest.PartitionQueueSet("default"), seq(|c.slots|, _ => IDLE_WORKER),
                             seq(taps, _ => OFF_TAP), seq(feeders, _ => Resting), {}, map[], {}))
  {
  }

  /**
   * Whatever a connection, a tap or a feeding process is doing, it can be cut off there: its unacknowledged messages
   * are ready again, the store keeps what was written, and it is back where it started.
   */
  lemma AnythingCanBeCutOff(c: Config, s: World)
    requires |s.workers| == |c.slots| && forall w :: 0 <= w < |c.slots| ==> c.slots[w].stage < c.N()
    ensures forall w :: 0 <= w < |s.workers| && s.workers[w] != IDLE_WORKER ==>
              && Enabled(c, s, AtWorker(w, Crash))
              && var s' := Apply(c, s, AtWorker(w, Crash));
                 && s'.db == s.db && s'.workers[w] == IDLE_WORKER
                 && s'.ready == s.ready + if s.workers[w].unacked.Some? then [s.workers[w].unacked.value] else []
    ensures forall t :: 0 <= t < |s.taps| && !s.taps[t].phase.Off? ==>
              && Enabled(c, s, Step.AtTap(t, TapCloses))
              && var s' := Apply(c, s, Step.AtTap(t, TapCloses));
                 s'.db == s.db && s'.taps[t].phase.Off? && s'.ready == s.ready + s.taps[t].Unacked()
    ensures forall f :: 0 <= f < |s.feeders| && !s.feeders[f].Resting? ==>
              && Enabled(c, s, AtFeeder(f, FeederDies))
              && var s' := Apply(c, s, AtFeeder(f, FeederDies));
                 s'.db == s.db && s'.feeders[f].Resting? && s'.ready == s.ready
  {
  }

  /** Operators can let time pass, set a hold and clear one at any moment. */
  lemma OperatorsActAnytime(c: Config, s: World, later: nat, selectors: seq<Selector>, until: Option<int>, i: nat)
    ensures Enabled(c, s, AtOperator(Tick(later))) && Apply(c, s, AtOperator(Tick(later))) == s.(now := s.now + later)
    ensures var place := AtOperator(PlaceHold(selectors, until));
            && Enabled(c, s, place)
            && Apply(c, s, place).db.holds == s.db.holds + [Hold(|s.db.holds|, c.Run(), selectors, until, false)]
    ensures var lift := AtOperator(LiftHold(i, selectors));
            && Enabled(c, s, lift)
            && (i < |s.db.holds| && s.db.holds[i].runId == c.Run() && s.db.holds[i].selectors == selectors && !s.db.holds[i].cleared ==>
                  Apply(c, s, lift).db.holds == s.db.holds[i := s.db.holds[i].(cleared := true)])
  {
  }
}
