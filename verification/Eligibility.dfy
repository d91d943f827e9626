/** Seeding and replay (pipeline/eligibility.py): every row is marked pending before anything is published. */
module Eligibility {
  import opened Common
  import opened Targeting
  import opened Manifest
  import opened Jobs
  import opened Documents
  import opened Counting
  import opened Store

  datatype Eligible = Eligible(stage: string, job: Job)

  function Resolved(items: seq<Eligible>): seq<Eligible> {
    seq(|items|, i requires 0 <= i < |items| => items[i].(job := items[i].job.Resolve()))
  }

  predicate Known(m: RunManifest, item: Eligible) {
    m.StageInputQueue(item.stage, item.job.partitionKey).Some?
  }

  /** Where a job is published; only asked of known stages. */
  function QueueOf(m: RunManifest, item: Eligible): string {
    var queue := m.StageInputQueue(item.stage, item.job.partitionKey);
    if queue.Some? then queue.value else ""
  }

  lemma QueueIs(m: RunManifest, item: Eligible)
    ensures var queue := m.StageInputQueue(item.stage, item.job.partitionKey);
            (Known(m, item) <==> queue.Some?) && (queue.Some? ==> QueueOf(m, item) == queue.value)
  {
  }

  // ---------------------------------------------------------------- specification

  /** The rows once these jobs are marked, in order. */
  function MarkAll(db: Db, m: RunManifest, items: seq<Eligible>): Db {
    if items == [] then db
    else
      var last := items[|items| - 1];
      MarkPending(MarkAll(db, m, items[..|items| - 1]), last.job, last.stage, QueueOf(m, last))
  }

  /** The jobs bound for one queue, in input order. */
  function JobsFor(m: RunManifest, items: seq<Eligible>, queue: string): seq<Job> {
    if items == [] then []
    else
      var last := items[|items| - 1];
      JobsFor(m, items[..|items| - 1], queue) + if QueueOf(m, last) == queue then [last.job] else []
  }

  /** Queues in order of first use. */
  function QueueOrder(m: RunManifest, items: seq<Eligible>): seq<string> {
    if items == [] then []
    else
      var before := QueueOrder(m, items[..|items| - 1]);
      var queue := QueueOf(m, items[|items| - 1]);
      if queue in before then before else before + [queue]
  }

  /** Partition keys in order of first use. */
  function KeyOrder(items: seq<Eligible>): seq<string> {
    if items == [] then []
    else
      var before := KeyOrder(items[..|items| - 1]);
      var key := items[|items| - 1].job.partitionKey;
      if key in before then before else before + [key]
  }

  /** A broker call, with what the store held when it was made. */
  datatype Call =
    | Declare(key: string, queues: set<string>, stored: Db)
    | PublishJobs(queue: string, jobs: seq<Job>, stored: Db)

  function Declarations(db: Db, m: RunManifest, items: seq<Eligible>): seq<Call> {
    if items == [] then []
    else
      var rest := items[..|items| - 1];
      var key := items[|items| - 1].job.partitionKey;
      Declarations(db, m, rest)
      + if key in KeyOrder(rest) then [] else [Declare(key, m.PartitionQueueSet(key), MarkAll(db, m, rest))]
  }

  function Publications(m: RunManifest, items: seq<Eligible>, stored: Db): seq<Call> {
    var order := QueueOrder(m, items);
    seq(|order|, i requires 0 <= i < |order| => PublishJobs(order[i], JobsFor(m, items, order[i]), stored))
  }

  /** The broker calls of a feed that meets no error. */
  function Calls(db: Db, m: RunManifest, items: seq<Eligible>): seq<Call> {
    Declarations(db, m, items) + Publications(m, items, MarkAll(db, m, items))
  }

  // ---------------------------------------------------------------- what the specification promises

  datatype Bound = Bound(queue: string, job: Job)

  function BoundJobs(m: RunManifest, items: seq<Eligible>): seq<Bound> {
    seq(|items|, i requires 0 <= i < |items| => Bound(QueueOf(m, items[i]), items[i].job))
  }

  function Sent(call: Call): seq<Bound> {
    if call.Declare? then [] else seq(|call.jobs|, i requires 0 <= i < |call.jobs| => Bound(call.queue, call.jobs[i]))
  }

  function AllSent(calls: seq<Call>): multiset<Bound> {
    if calls == [] then multiset{}
    else AllSent(calls[..|calls| - 1]) + multiset(Sent(calls[|calls| - 1]))
  }

  lemma {:induction false} OrderHasQueues(m: RunManifest, items: seq<Eligible>, queue: string)
    ensures queue in QueueOrder(m, items) <==> exists i :: 0 <= i < |items| && QueueOf(m, items[i]) == queue
    ensures queue in QueueOrder(m, items) <==> JobsFor(m, items, queue) != []
  {
    if items != [] {
      var rest := items[..|items| - 1];
      OrderHasQueues(m, rest, queue);
      assert forall i :: 0 <= i < |rest| ==> rest[i] == items[i];
    }
  }

  /** One publish call per queue. */
  lemma {:induction false} OrderIsDistinct(m: RunManifest, items: seq<Eligible>)
    ensures NoDuplicates(QueueOrder(m, items))
  {
    if items != [] {
      OrderIsDistinct(m, items[..|items| - 1]);
    }
  }

  lemma {:induction false} JobsForCounts(m: RunManifest, items: seq<Eligible>, b: Bound)
    ensures multiset(BoundJobs(m, items))[b] == multiset(JobsFor(m, items, b.queue))[b.job]
  {
    hide QueueOf;
    if items != [] {
      var rest := items[..|items| - 1];
      var last := items[|items| - 1];
      JobsForCounts(m, rest, b);
      assert BoundJobs(m, items) == BoundJobs(m, rest) + [Bound(QueueOf(m, last), last.job)];
    }
  }

  lemma {:induction false} SentCounts(queue: string, jobs: seq<Job>, stored: Db, b: Bound)
    ensures multiset(Sent(PublishJobs(queue, jobs, stored)))[b] == if b.queue == queue then multiset(jobs)[b.job] else 0
  {
    if jobs != [] {
      var rest := jobs[..|jobs| - 1];
      SentCounts(queue, rest, stored, b);
      assert Sent(PublishJobs(queue, jobs, stored)) == Sent(PublishJobs(queue, rest, stored)) + [Bound(queue, jobs[|jobs| - 1])];
      assert jobs == rest + [jobs[|jobs| - 1]];
    }
  }

  function PublishesTo(m: RunManifest, items: seq<Eligible>, order: seq<string>, stored: Db): seq<Call> {
    seq(|order|, i requires 0 <= i < |order| => PublishJobs(order[i], JobsFor(m, items, order[i]), stored))
  }

  lemma {:induction false} AllSentCounts(m: RunManifest, items: seq<Eligible>, order: seq<string>, stored: Db, b: Bound)
    requires NoDuplicates(order)
    ensures AllSent(PublishesTo(m, items, order, stored))[b] == if b.queue in order then multiset(JobsFor(m, items, b.queue))[b.job] else 0
  {
    if order != [] {
      var rest := order[..|order| - 1];
      var queue := order[|order| - 1];
      AllSentCounts(m, items, rest, stored, b);
      SentCounts(queue, JobsFor(m, items, queue), stored, b);
      assert PublishesTo(m, items, order, stored)[..|order| - 1] == PublishesTo(m, items, rest, stored);
      assert order == rest + [queue];
    }
  }

  /** The published (queue, job) pairs are the marked ones, each as often as it was given. */
  lemma PublishingConserves(m: RunManifest, items: seq<Eligible>, stored: Db)
    ensures AllSent(Publications(m, items, stored)) == multiset(BoundJobs(m, items))
  {
    var order := QueueOrder(m, items);
    OrderIsDistinct(m, items);
    assert Publications(m, items, stored) == PublishesTo(m, items, order, stored);
    forall b: Bound ensures AllSent(Publications(m, items, stored))[b] == multiset(BoundJobs(m, items))[b] {
      AllSentCounts(m, items, order, stored, b);
      JobsForCounts(m, items, b);
      OrderHasQueues(m, items, b.queue);
    }
  }

  /** The jobs one queue gets are the input's jobs for it, in input order: the place of each is the number before it. */
  lemma JobsKeepTheirOrder(m: RunManifest, items: seq<Eligible>, queue: string, i: nat)
    requires i < |items| && QueueOf(m, items[i]) == queue
    ensures var place := |JobsFor(m, items[..i], queue)|;
            place < |JobsFor(m, items, queue)| && JobsFor(m, items, queue)[place] == items[i].job
    ensures forall j :: i < j <= |items| ==> |JobsFor(m, items[..i], queue)| < |JobsFor(m, items[..j], queue)|
  {
    hide QueueOf;
    assert items[..i + 1][..i] == items[..i] && items[..|items|] == items;
    var upTo := JobsFor(m, items[..i + 1], queue);
    assert upTo == JobsFor(m, items[..i], queue) + [items[i].job];
    forall j | i < j <= |items| ensures upTo <= JobsFor(m, items[..j], queue) {
      JobsForGrows(m, items, queue, i + 1, j);
    }
    hide JobsFor;
    JobsForGrows(m, items, queue, i + 1, |items|);
  }

  lemma {:induction false} JobsForGrows(m: RunManifest, items: seq<Eligible>, queue: string, i: nat, j: nat)
    requires i <= j <= |items|
    ensures JobsFor(m, items[..i], queue) <= JobsFor(m, items[..j], queue)
    decreases j - i
  {
    hide QueueOf;
    if i < j {
      JobsForGrows(m, items, queue, i, j - 1);
      assert items[..j][..j - 1] == items[..j - 1];
    }
  }

  function FirstWith(items: seq<Eligible>, key: string): nat {
    if items == [] || items[0].job.partitionKey == key then 0 else 1 + FirstWith(items[1..], key)
  }

  lemma {:induction false} FirstWithIsFirst(items: seq<Eligible>, key: string, n: nat)
    requires n < |items| && items[n].job.partitionKey == key
    requires forall i :: 0 <= i < n ==> items[i].job.partitionKey != key
    ensures FirstWith(items, key) == n
  {
    if n > 0 {
      assert forall i :: 0 <= i < n - 1 ==> items[1..][i] == items[i + 1];
      FirstWithIsFirst(items[1..], key, n - 1);
    }
  }

  lemma {:induction false} KeyOrderHasKeys(items: seq<Eligible>, key: string)
    ensures key in KeyOrder(items) <==> exists i :: 0 <= i < |items| && items[i].job.partitionKey == key
  {
    if items != [] {
      var rest := items[..|items| - 1];
      KeyOrderHasKeys(rest, key);
      assert forall i :: 0 <= i < |rest| ==> rest[i] == items[i];
    }
  }

  /** Each partition is declared once, when exactly the jobs before its first job have been marked. */
  lemma {:induction false} DeclaredOnceAndFirst(db: Db, m: RunManifest, items: seq<Eligible>, d: nat)
    requires d < |Declarations(db, m, items)|
    ensures var calls := Declarations(db, m, items);
            && |calls| == |KeyOrder(items)| && NoDuplicates(KeyOrder(items))
            && (forall e :: 0 <= e < |calls| ==> calls[e].Declare? && calls[e].key == KeyOrder(items)[e])
            && FirstWith(items, calls[d].key) < |items|
            && calls[d].stored == MarkAll(db, m, items[..FirstWith(items, calls[d].key)])
  {
    hide MarkPending;
    DeclarationKeys(db, m, items);
    DeclaredAtFirst(db, m, items, items, d);
  }

  lemma {:induction false} DeclarationKeys(db: Db, m: RunManifest, items: seq<Eligible>)
    ensures var calls := Declarations(db, m, items);
            && |calls| == |KeyOrder(items)| && NoDuplicates(KeyOrder(items))
            && forall e :: 0 <= e < |calls| ==> calls[e].Declare? && calls[e].key == KeyOrder(items)[e]
                                                && calls[e].queues == m.PartitionQueueSet(calls[e].key)
  {
    if items != [] {
      DeclarationKeys(db, m, items[..|items| - 1]);
    }
  }

  lemma {:induction false} DeclaredAtFirst(db: Db, m: RunManifest, all: seq<Eligible>, items: seq<Eligible>, d: nat)
    requires items <= all && d < |Declarations(db, m, items)|
    ensures var call := Declarations(db, m, items)[d];
            call.Declare? && FirstWith(all, call.key) < |all| && call.stored == MarkAll(db, m, all[..FirstWith(all, call.key)])
  {
    hide MarkPending;
    if items != [] {
      var n := |items| - 1;
      var rest := items[..n];
      if d < |Declarations(db, m, rest)| {
        DeclaredAtFirst(db, m, all, rest, d);
      } else {
        var key := items[n].job.partitionKey;
        KeyOrderHasKeys(rest, key);
        assert forall i :: 0 <= i < n ==> rest[i] == all[i];
        FirstWithIsFirst(all, key, n);
        assert all[..n] == rest;
      }
    }
  }

  /** Every publish comes after all the marks, and its queue was declared before. */
  lemma PublishedAfterMarking(db: Db, m: RunManifest, items: seq<Eligible>, p: nat)
    requires forall i :: 0 <= i < |items| ==> Known(m, items[i])
    requires p < |Calls(db, m, items)| && Calls(db, m, items)[p].PublishJobs?
    ensures var calls := Calls(db, m, items);
            && calls[p].stored == MarkAll(db, m, items)
            && |Declarations(db, m, items)| <= p
            && calls[p].jobs != []
            && exists d :: 0 <= d < p && calls[d].Declare? && calls[p].queue in calls[d].queues
  {
    var calls, first := Calls(db, m, items), Declarations(db, m, items);
    DeclarationKeys(db, m, items);
    assert forall e :: 0 <= e < |first| ==> calls[e] == first[e];
    assert calls[p] == Publications(m, items, MarkAll(db, m, items))[p - |first|];
    var queue := calls[p].queue;
    assert queue == QueueOrder(m, items)[p - |first|];
    OrderHasQueues(m, items, queue);
    var i :| 0 <= i < |items| && QueueOf(m, items[i]) == queue;
    KeyOrderHasKeys(items, items[i].job.partitionKey);
    var d :| 0 <= d < |KeyOrder(items)| && KeyOrder(items)[d] == items[i].job.partitionKey;
    assert calls[d] == first[d];
    InputIsDeclared(m, items[i]);
  }

  lemma InputIsDeclared(m: RunManifest, item: Eligible)
    requires Known(m, item)
    ensures QueueOf(m, item) in m.PartitionQueueSet(item.job.partitionKey)
  {
    m.StageIndexInRange(item.stage, 0);
  }

  // ---------------------------------------------------------------- marking

  predicate Marked(items: seq<Eligible>, key: RowKey) {
    exists i :: 0 <= i < |items| && KeyOf(items[i].job, items[i].stage) == key
  }

  /** The row stores one of the marked envelopes, with its tags and its queue. */
  predicate HoldsMarkedJob(m: RunManifest, items: seq<Eligible>, key: RowKey, row: Row) {
    exists i :: 0 <= i < |items| && KeyOf(items[i].job, items[i].stage) == key && StoresItem(m, items[i], row)
  }

  predicate StoresItem(m: RunManifest, item: Eligible, row: Row) {
    && row.job == item.job && row.targetTags == item.job.targetTags && row.partitionKey == item.job.partitionKey
    && row.queueName == QueueOf(m, item)
  }

  /** A marked row is PENDING with nothing set; the others are as they were. */
  lemma {:induction false} MarkingWritesRows(db: Db, m: RunManifest, items: seq<Eligible>, key: RowKey)
    ensures var after := MarkAll(db, m, items);
            && after.events == db.events && after.attempts == db.attempts && after.batches == db.batches && after.holds == db.holds
            && (Marked(items, key) ==>
                  && key in after.rows && after.rows[key].status == Pending && after.rows[key].notBefore.None? && after.rows[key].holdId.None?
                  && HoldsMarkedJob(m, items, key, after.rows[key]))
            && (!Marked(items, key) ==> (key in after.rows <==> key in db.rows) && (key in db.rows ==> after.rows[key] == db.rows[key]))
  {
    if items != [] {
      var rest := items[..|items| - 1];
      MarkingWritesRows(db, m, rest, key);
      assert forall i :: 0 <= i < |rest| ==> rest[i] == items[i];
      var last := items[|items| - 1];
      assert Marked(items, key) <==> Marked(rest, key) || KeyOf(last.job, last.stage) == key;
      var before, after := MarkAll(db, m, rest), MarkAll(db, m, items);
      if KeyOf(last.job, last.stage) == key {
        assert HoldsMarkedJob(m, items, key, after.rows[key]);
      } else if Marked(rest, key) {
        var i :| 0 <= i < |rest| && KeyOf(rest[i].job, rest[i].stage) == key && StoresItem(m, rest[i], before.rows[key]);
        assert items[i] == rest[i];
        assert HoldsMarkedJob(m, items, key, after.rows[key]);
      }
    }
  }

  /** A job marked once is stored as it was given. */
  lemma MarkedOnce(db: Db, m: RunManifest, items: seq<Eligible>, i: nat)
    requires i < |items|
    requires forall j :: 0 <= j < |items| && j != i ==> KeyOf(items[j].job, items[j].stage) != KeyOf(items[i].job, items[i].stage)
    ensures var rows, key := MarkAll(db, m, items).rows, KeyOf(items[i].job, items[i].stage);
            && key in rows && rows[key].status == Pending && rows[key].job == items[i].job
            && rows[key].queueName == QueueOf(m, items[i])
  {
    hide MarkAll, QueueOf;
    var key := KeyOf(items[i].job, items[i].stage);
    MarkingWritesRows(db, m, items, key);
    var row := MarkAll(db, m, items).rows[key];
    var j :| 0 <= j < |items| && KeyOf(items[j].job, items[j].stage) == key && StoresItem(m, items[j], row);
  }

  lemma {:induction false} SentAppend(a: seq<Call>, b: seq<Call>)
    ensures AllSent(a + b) == AllSent(a) + AllSent(b)
  {
    hide Sent;
    if b == [] {
      assert a + b == a;
    } else {
      var n := |b| - 1;
      assert (a + b)[..|a + b| - 1] == a + b[..n];
      SentAppend(a, b[..n]);
    }
  }

  lemma {:induction false} DeclaringSendsNothing(calls: seq<Call>)
    requires forall i :: 0 <= i < |calls| ==> calls[i].Declare?
    ensures AllSent(calls) == multiset{}
  {
    if calls != [] {
      DeclaringSendsNothing(calls[..|calls| - 1]);
    }
  }

  /** A feed without errors publishes each given job once, to the queue of its stage and partition. */
  lemma CallsSendEachOnce(db: Db, m: RunManifest, items: seq<Eligible>)
    ensures AllSent(Calls(db, m, items)) == multiset(BoundJobs(m, items))
  {
    hide AllSent, BoundJobs, Declarations, Publications, MarkAll;
    var first, second := Declarations(db, m, items), Publications(m, items, MarkAll(db, m, items));
    DeclarationKeys(db, m, items);
    SentAppend(first, second);
    DeclaringSendsNothing(first);
    PublishingConserves(m, items, MarkAll(db, m, items));
  }

  // ---------------------------------------------------------------- the procedures

  datatype FeedError =
    | WrongRun(ids: set<string>)
    | WrongPipeline(ids: set<string>)
    | Rejected(reason: SeedError)
    | NoStages
    | UnknownStage(stage: string)
    | BrokerFailed

  /** The broker as the feeding procedures see it; `callsLeft` is how many calls succeed before one raises. */
  class FeedBroker {
    const store: RunStore
    var callsLeft: Option<nat>
    ghost var sent: seq<Call>

    constructor (store: RunStore, callsLeft: Option<nat>)
      ensures this.store == store && this.callsLeft == callsLeft && sent == []
    {
      this.store, this.callsLeft, sent := store, callsLeft, [];
    }

    method Perform(ghost call: Call) returns (ok: bool)
      modifies this
      ensures ok <==> old(callsLeft) != Some(0)
      ensures sent == if ok then old(sent) + [call] else old(sent)
      ensures old(callsLeft).None? ==> callsLeft.None?
    {
      ok := callsLeft != Some(0);
      if ok {
        sent := sent + [call];
        if callsLeft.Some? {
          callsLeft := Some(callsLeft.value - 1);
        }
      }
    }

    method DeclarePartition(m: RunManifest, key: string) returns (ok: bool)
      modifies this
      ensures ok <==> old(callsLeft) != Some(0)
      ensures sent == old(sent) + if ok then [Declare(key, m.PartitionQueueSet(key), store.Contents())] else []
      ensures old(callsLeft).None? ==> callsLeft.None?
    {
      ok := Perform(Declare(key, m.PartitionQueueSet(key), store.Contents()));
    }

    method PublishTo(queue: string, jobs: seq<Job>) returns (ok: bool)
      modifies this
      ensures ok <==> old(callsLeft) != Some(0)
      ensures sent == old(sent) + if ok then [PublishJobs(queue, jobs, store.Contents())] else []
      ensures old(callsLeft).None? ==> callsLeft.None?
    {
      ok := Perform(PublishJobs(queue, jobs, store.Contents()));
    }
  }

  /** The first loop of `_mark_pending_and_publish`. On an error at some job, the jobs before it stay marked. */
  method MarkAndGroup(m: RunManifest, raw: seq<Eligible>, store: RunStore, broker: FeedBroker)
    returns (order: seq<string>, jobsByQueue: map<string, seq<Job>>, error: Option<FeedError>, ghost done: nat)
    requires broker.store == store
    modifies store, broker
    ensures store.clock == old(store.clock) && store.seedBatches == old(store.seedBatches) && done <= |raw|
    ensures store.Contents() == MarkAll(old(store.Contents()), m, Resolved(raw)[..done])
    ensures error.None? ==>
              && done == |raw| && (forall i :: 0 <= i < |raw| ==> Known(m, Resolved(raw)[i]))
              && order == QueueOrder(m, Resolved(raw))
              && GroupsOk(m, Resolved(raw), order, jobsByQueue)
              && broker.sent == old(broker.sent) + Declarations(old(store.Contents()), m, Resolved(raw))
    ensures error.Some? ==>
              && done < |raw|
              && ((error.value == UnknownStage(raw[done].stage) && !Known(m, Resolved(raw)[done]))
                  || (error.value == BrokerFailed && old(broker.callsLeft).Some?))
              && exists n :: done <= n <= done + 1
                             && broker.sent == old(broker.sent) + Declarations(old(store.Contents()), m, Resolved(raw)[..n])
    ensures old(broker.callsLeft).None? ==> broker.callsLeft.None?
  {
    hide MarkAll, Declarations, KeyOrder, QueueOrder, JobsFor, GroupsOk, MarkPending, DerivePartitionKey, Known, QueueOf, m.StageInputQueue, m.PartitionQueueSet;
    ghost var items := Resolved(raw);
    ghost var before := store.Contents();
    var declaredPartitions: set<string> := {};
    order, jobsByQueue, error, done := [], map[], None, 0;
    NothingYet(before, m, items);
    for i := 0 to |raw|
      invariant error.None? && done == i
      invariant store.clock == old(store.clock) && store.seedBatches == old(store.seedBatches)
      invariant store.Contents() == MarkAll(before, m, items[..i])
      invariant forall key :: key in declaredPartitions <==> key in KeyOrder(items[..i])
      invariant broker.sent == old(broker.sent) + Declarations(before, m, items[..i])
      invariant forall j :: 0 <= j < i ==> Known(m, items[j])
      invariant order == QueueOrder(m, items[..i]) && GroupsOk(m, items[..i], order, jobsByQueue)
      invariant old(broker.callsLeft).None? ==> broker.callsLeft.None?
    {
      OneMore(before, m, items, i);
      var stage, job := raw[i].stage, raw[i].job.Resolve();
      assert items[i] == Eligible(stage, job);
      if job.partitionKey !in declaredPartitions {
        var ok := broker.DeclarePartition(m, job.partitionKey);
        if !ok {
          error := Some(BrokerFailed);
          return;
        }
        declaredPartitions := declaredPartitions + {job.partitionKey};
      }
      var queue := m.StageInputQueue(stage, job.partitionKey);
      QueueIs(m, items[i]);
      if queue.None? {
        error := Some(UnknownStage(stage));
        return;
      }
      var _ := store.MarkJobPending(job, stage, queue.value);
      order, jobsByQueue := AddToGroup(m, items[..i], order, jobsByQueue, queue.value, Eligible(stage, job));
      done := i + 1;
    }
    assert items[..|raw|] == items;
  }

  lemma NothingYet(db: Db, m: RunManifest, items: seq<Eligible>)
    ensures MarkAll(db, m, items[..0]) == db && Declarations(db, m, items[..0]) == [] && KeyOrder(items[..0]) == []
    ensures QueueOrder(m, items[..0]) == [] && GroupsOk(m, items[..0], [], map[])
  {
  }

  /** What one more job adds. */
  lemma OneMore(db: Db, m: RunManifest, items: seq<Eligible>, i: nat)
    requires i < |items|
    ensures MarkAll(db, m, items[..i + 1]) == MarkPending(MarkAll(db, m, items[..i]), items[i].job, items[i].stage, QueueOf(m, items[i]))
    ensures var key := items[i].job.partitionKey;
            && Declarations(db, m, items[..i + 1])
               == Declarations(db, m, items[..i])
                  + (if key in KeyOrder(items[..i]) then [] else [Declare(key, m.PartitionQueueSet(key), MarkAll(db, m, items[..i]))])
            && forall k :: k in KeyOrder(items[..i + 1]) <==> k in KeyOrder(items[..i]) || k == key
    ensures items[..i] + [items[i]] == items[..i + 1]
  {
    hide MarkPending;
    assert items[..i + 1][..i] == items[..i];
  }

  ghost predicate GroupsOk(m: RunManifest, items: seq<Eligible>, order: seq<string>, jobsByQueue: map<string, seq<Job>>) {
    && (forall q :: q in order <==> q in jobsByQueue)
    && forall q :: q in jobsByQueue ==> jobsByQueue[q] == JobsFor(m, items, q)
  }

  /** `jobs_by_queue.setdefault(queue, []).append(job)`, with the dictionary's insertion order kept beside it. */
  method AddToGroup(m: RunManifest, ghost items: seq<Eligible>, order: seq<string>, jobsByQueue: map<string, seq<Job>>, queue: string, item: Eligible)
    returns (order': seq<string>, jobsByQueue': map<string, seq<Job>>)
    requires order == QueueOrder(m, items) && GroupsOk(m, items, order, jobsByQueue) && queue == QueueOf(m, item)
    ensures order' == QueueOrder(m, items + [item]) && GroupsOk(m, items + [item], order', jobsByQueue')
  {
    assert (items + [item])[..|items|] == items;
    OrderHasQueues(m, items, queue);
    if queue in jobsByQueue {
      order' := order;
      jobsByQueue' := jobsByQueue[queue := jobsByQueue[queue] + [item.job]];
    } else {
      order' := order + [queue];
      jobsByQueue' := jobsByQueue[queue := [item.job]];
    }
  }

  /** The second loop. On an error, a prefix of the publications has been made. */
  method PublishGroups(m: RunManifest, ghost items: seq<Eligible>, order: seq<string>, jobsByQueue: map<string, seq<Job>>, broker: FeedBroker)
    returns (error: Option<FeedError>, ghost count: nat)
    requires order == QueueOrder(m, items) && GroupsOk(m, items, order, jobsByQueue)
    modifies broker
    ensures count <= |order|
    ensures broker.sent == old(broker.sent) + Publications(m, items, broker.store.Contents())[..count]
    ensures error.None? ==> count == |order|
    ensures error.Some? ==> error.value == BrokerFailed && old(broker.callsLeft).Some?
  {
    error, count := None, 0;
    for i := 0 to |order|
      invariant error.None? && count == i
      invariant broker.sent == old(broker.sent) + Publications(m, items, broker.store.Contents())[..i]
      invariant old(broker.callsLeft).None? ==> broker.callsLeft.None?
    {
      var ok := broker.PublishTo(order[i], jobsByQueue[order[i]]);
      if !ok {
        error := Some(BrokerFailed);
        return;
      }
      assert Publications(m, items, broker.store.Contents())[..i + 1]
          == Publications(m, items, broker.store.Contents())[..i] + [Publications(m, items, broker.store.Contents())[i]];
      count := i + 1;
    }
  }

  /** What a feed leaves: all of it, or the marks of a prefix of the jobs and a prefix of the calls, nothing published early. */
  ghost predicate Fed(before: Db, after: Db, sent: seq<Call>, m: RunManifest, raw: seq<Eligible>, error: Option<FeedError>) {
    var items := Resolved(raw);
    if error.None? then
      && (forall i :: 0 <= i < |items| ==> Known(m, items[i]))
      && after == MarkAll(before, m, items) && sent == Calls(before, m, items)
    else
      || (exists done: nat, n: nat :: FedPart(before, after, sent, m, items, done, n))
      || (after == MarkAll(before, m, items) && sent <= Calls(before, m, items))
  }

  ghost predicate FedPart(before: Db, after: Db, sent: seq<Call>, m: RunManifest, items: seq<Eligible>, done: nat, n: nat) {
    done <= n <= |items| && after == MarkAll(before, m, items[..done]) && sent == Declarations(before, m, items[..n])
  }

  method MarkPendingAndPublish(m: RunManifest, raw: seq<Eligible>, store: RunStore, broker: FeedBroker) returns (error: Option<FeedError>)
    requires broker.store == store && broker.sent == []
    modifies store, broker
    ensures store.clock == old(store.clock) && store.seedBatches == old(store.seedBatches)
    ensures Fed(old(store.Contents()), store.Contents(), broker.sent, m, raw, error)
    ensures old(broker.callsLeft).None? && (forall i :: 0 <= i < |raw| ==> Known(m, Resolved(raw)[i])) ==> error.None?
    ensures error.Some? ==> error.value.UnknownStage? || error.value.BrokerFailed?
  {
    hide MarkAll, Declarations, QueueOrder, JobsFor, Known, GroupsOk;
    ghost var before := store.Contents();
    ghost var items := Resolved(raw);
    var order, jobsByQueue, failed, done := MarkAndGroup(m, raw, store, broker);
    if failed.Some? {
      ghost var n :| done <= n <= done + 1 && broker.sent == [] + Declarations(before, m, items[..n]);
      assert FedPart(before, store.Contents(), broker.sent, m, items, done, n);
      return failed;
    }
    assert items[..|items|] == items;
    ghost var count;
    error, count := PublishGroups(m, items, order, jobsByQueue, broker);
    ghost var publications := Publications(m, items, store.Contents());
    assert publications[..|order|] == publications;
    assert broker.sent == (Declarations(before, m, items) + publications)[..|Declarations(before, m, items)| + count];
  }

  function WrongRuns(m: RunManifest, jobs: seq<Job>): set<string> {
    set i | 0 <= i < |jobs| && jobs[i].runId != m.runId :: jobs[i].runId
  }

  function WrongPipelines(m: RunManifest, jobs: seq<Job>): set<string> {
    set i | 0 <= i < |jobs| && jobs[i].pipelineId != m.pipelineId :: jobs[i].pipelineId
  }

  lemma NoneWrong(m: RunManifest, jobs: seq<Job>)
    ensures WrongRuns(m, jobs) == {} <==> forall i :: 0 <= i < |jobs| ==> jobs[i].runId == m.runId
    ensures WrongPipelines(m, jobs) == {} <==> forall i :: 0 <= i < |jobs| ==> jobs[i].pipelineId == m.pipelineId
  {
    if i :| 0 <= i < |jobs| && jobs[i].runId != m.runId {
      assert jobs[i].runId in WrongRuns(m, jobs);
    }
    if i :| 0 <= i < |jobs| && jobs[i].pipelineId != m.pipelineId {
      assert jobs[i].pipelineId in WrongPipelines(m, jobs);
    }
  }

  function FirstStage(m: RunManifest, jobs: seq<Job>): seq<Eligible>
    requires m.stages != []
  {
    seq(|jobs|, i requires 0 <= i < |jobs| => Eligible(m.stages[0].name, jobs[i]))
  }

  lemma FirstStageIsKnown(m: RunManifest, jobs: seq<Job>)
    requires m.stages != []
    ensures |Resolved(FirstStage(m, jobs))| == |FirstStage(m, jobs)| == |jobs|
    ensures forall i :: 0 <= i < |jobs| ==> Known(m, Resolved(FirstStage(m, jobs))[i])
  {
    assert m.StageIndex(m.stages[0].name) == Some(0);
  }

  /** Seeding reaches the first stage: its rows, its queues, each job once. */
  lemma SeedsTheFirstStage(db: Db, m: RunManifest, jobs: seq<Job>)
    requires m.stages != [] && NoDuplicates(JobIds(jobs)) && forall i :: 0 <= i < |jobs| ==> jobs[i].runId == m.runId
    ensures var items := Resolved(FirstStage(m, jobs));
            && (forall i :: 0 <= i < |jobs| ==>
                  var job, key, rows := jobs[i].Resolve(), RowKey(m.runId, jobs[i].jobId, m.stages[0].name), MarkAll(db, m, items).rows;
                  && key in rows && rows[key].status == Pending && rows[key].job == job
                  && rows[key].queueName == m.QueueAt(0, job.partitionKey))
            && AllSent(Calls(db, m, items))
               == multiset(seq(|jobs|, i requires 0 <= i < |jobs| => Bound(m.QueueAt(0, jobs[i].Resolve().partitionKey), jobs[i].Resolve())))
  {
    hide MarkAll, AllSent, Calls, DerivePartitionKey;
    var items := Resolved(FirstStage(m, jobs));
    assert m.StageIndex(m.stages[0].name) == Some(0);
    forall i | 0 <= i < |jobs| ensures QueueOf(m, items[i]) == m.QueueAt(0, jobs[i].Resolve().partitionKey) {
    }
    hide QueueOf;
    forall i, j | 0 <= i < |jobs| && 0 <= j < |jobs| && i != j ensures KeyOf(items[j].job, items[j].stage) != KeyOf(items[i].job, items[i].stage) {
      assert JobIds(jobs)[i] != JobIds(jobs)[j];
    }
    forall i | 0 <= i < |jobs|
      ensures var job, key, rows := jobs[i].Resolve(), RowKey(m.runId, jobs[i].jobId, m.stages[0].name), MarkAll(db, m, items).rows;
              && key in rows && rows[key].status == Pending && rows[key].job == job
              && rows[key].queueName == m.QueueAt(0, job.partitionKey)
    {
      MarkedOnce(db, m, items, i);
    }
    CallsSendEachOnce(db, m, items);
    assert BoundJobs(m, items)
        == seq(|jobs|, i requires 0 <= i < |jobs| => Bound(m.QueueAt(0, jobs[i].Resolve().partitionKey), jobs[i].Resolve()));
  }

  /** The error names the foreign run ids, or when there are none the foreign pipeline ids. */
  ghost predicate Refused(m: RunManifest, jobs: seq<Job>, error: Option<FeedError>) {
    if exists i :: 0 <= i < |jobs| && jobs[i].runId != m.runId then
      error.Some? && error.value.WrongRun?
      && forall id :: id in error.value.ids <==> id != m.runId && exists i :: 0 <= i < |jobs| && jobs[i].runId == id
    else
      error.Some? && error.value.WrongPipeline?
      && forall id :: id in error.value.ids <==> id != m.pipelineId && exists i :: 0 <= i < |jobs| && jobs[i].pipelineId == id
  }

  /** `_validate_seed_jobs`. */
  method ValidateSeedJobs(m: RunManifest, jobs: seq<Job>) returns (error: Option<FeedError>)
    ensures error.None? <==> forall i :: 0 <= i < |jobs| ==> jobs[i].runId == m.runId && jobs[i].pipelineId == m.pipelineId
    ensures error.Some? ==> Refused(m, jobs, error)
  {
    NoneWrong(m, jobs);
    var wrongRuns := WrongRuns(m, jobs);
    if wrongRuns != {} {
      return Some(WrongRun(wrongRuns));
    }
    var wrongPipelines := WrongPipelines(m, jobs);
    if wrongPipelines != {} {
      return Some(WrongPipeline(wrongPipelines));
    }
    return None;
  }

  predicate Accepted(m: RunManifest, jobs: seq<Job>, batches: seq<SeedBatch>) {
    && (forall i :: 0 <= i < |jobs| ==> jobs[i].runId == m.runId && jobs[i].pipelineId == m.pipelineId)
    && NoDuplicates(JobIds(jobs)) && IdSet(JobIds(jobs)) !! ActiveIds(batches, m.runId)
  }

  /**
   * Seeding: refused without a trace, or one batch more, which is published exactly when every job was marked and
   * published at the first stage.
   */
  method SeedStageEligibleJobs(m: RunManifest, jobs: seq<Job>, store: RunStore, broker: FeedBroker) returns (error: Option<FeedError>)
    requires broker.store == store && broker.sent == []
    modifies store, broker
    ensures !Accepted(m, jobs, old(store.seedBatches)) ==>
              error.Some? && store.Contents() == old(store.Contents()) && broker.sent == []
    ensures Accepted(m, jobs, old(store.seedBatches)) ==>
              store.seedBatches == old(store.seedBatches)
                                   + [SeedBatch(m.runId, JobIds(jobs), |jobs|, if error.None? then Published else FailedBatch)]
    ensures Accepted(m, jobs, old(store.seedBatches)) && m.stages != [] ==>
              var created := AddBatch(old(store.Contents()), m.runId, JobIds(jobs));
              Fed(created, store.Contents().(batches := created.batches), broker.sent, m, FirstStage(m, jobs), error)
    ensures m.stages == [] ==> error.Some? && broker.sent == []
    ensures Accepted(m, jobs, old(store.seedBatches)) && m.stages != [] && old(broker.callsLeft).None? ==> error.None?
    ensures error.None? ==> m.stages != []
    ensures error.None? ==> forall i :: 0 <= i < |jobs| ==>
              var job, key := jobs[i].Resolve(), RowKey(m.runId, jobs[i].jobId, m.stages[0].name);
              && key in store.jobStates && store.jobStates[key].status == Pending && store.jobStates[key].job == job
              && store.jobStates[key].queueName == m.QueueAt(0, job.partitionKey)
    ensures error.None? ==>
              AllSent(broker.sent) == multiset(seq(|jobs|, i requires 0 <= i < |jobs| =>
                                                    Bound(m.QueueAt(0, jobs[i].Resolve().partitionKey), jobs[i].Resolve())))
    ensures (exists i :: 0 <= i < |jobs| && (jobs[i].runId != m.runId || jobs[i].pipelineId != m.pipelineId)) ==>
              Refused(m, jobs, error)
    ensures BatchesOk(old(store.seedBatches), m.runId) ==> BatchesOk(store.seedBatches, m.runId)
  {
    hide Refused, MarkAll, Calls, AllSent, DerivePartitionKey, NoDuplicates, BatchesOk, ActiveIds, FirstStage, Resolved;
    var invalid := ValidateSeedJobs(m, jobs);
    if invalid.Some? {
      return invalid;
    }
    var created := store.CreateSeedBatch(m.runId, JobIds(jobs));
    if created.Err? {
      return Some(Rejected(created.error));
    }
    ghost var before := store.Contents();
    if m.stages == [] {
      error := Some(NoStages);
    } else {
      FirstStageIsKnown(m, jobs);
      error := MarkPendingAndPublish(m, FirstStage(m, jobs), store, broker);
      SeedsTheFirstStage(before, m, jobs);
    }
    store.MarkSeedBatch(created.value, if error.None? then Published else FailedBatch);
    if BatchesOk(old(store.seedBatches), m.runId) {
      StatusKeepsBatches(before, created.value, if error.None? then Published else FailedBatch, m.runId);
    }
  }

  // ---------------------------------------------------------------- replay

  /** Rows agree with the envelopes they store. */
  ghost predicate RowsAgree(rows: Rows) {
    forall key :: key in rows ==>
      && KeyOf(rows[key].job, key.stage) == key && rows[key].targetTags == rows[key].job.targetTags
  }

  function Selected(rows: Rows, keys: seq<RowKey>): seq<Eligible>
    requires forall i :: 0 <= i < |keys| ==> keys[i] in rows
  {
    seq(|keys|, i requires 0 <= i < |keys| => Eligible(keys[i].stage, rows[keys[i]].job))
  }

  /** Marking what a replay selected leaves nothing for the same selection to find, unless it asks for PENDING rows. */
  lemma NothingLeftToReplay(db: Db, m: RunManifest, filter: ReplayFilter, now: int, keys: seq<RowKey>, key: RowKey)
    requires RowsAgree(db.rows)
    requires forall k :: k in keys <==> k in db.rows && Replayable(filter, now, k, db.rows[k])
    ensures var after := MarkAll(db, m, Resolved(Selected(db.rows, keys))).rows;
            key in after && Replayable(filter, now, key, after[key]) <==> filter.status == Some(Pending) && key in keys
  {
    hide MarkAll, TargetMatches, Resolved, Selected, StoresItem, Marked, Known;
    var items := Resolved(Selected(db.rows, keys));
    MarkingWritesRows(db, m, items, key);
    SelectionMarksItsKeys(db, keys, key);
    if key in keys {
      MarkedTags(m, db, keys, key, MarkAll(db, m, items).rows[key]);
    }
  }

  /** The marked rows are the selected ones. */
  lemma SelectionMarksItsKeys(db: Db, keys: seq<RowKey>, key: RowKey)
    requires RowsAgree(db.rows) && forall k :: k in keys ==> k in db.rows
    ensures Marked(Resolved(Selected(db.rows, keys)), key) <==> key in keys
  {
    hide DerivePartitionKey;
    var items := Resolved(Selected(db.rows, keys));
    forall i | 0 <= i < |items| ensures KeyOf(items[i].job, items[i].stage) == keys[i] {
      assert keys[i] in keys;
    }
    if key in keys {
      var i :| 0 <= i < |keys| && keys[i] == key;
      assert KeyOf(items[i].job, items[i].stage) == key;
    }
  }

  /** A marked row keeps the tags the selection looked at. */
  lemma MarkedTags(m: RunManifest, db: Db, keys: seq<RowKey>, key: RowKey, row: Row)
    requires RowsAgree(db.rows) && forall k :: k in keys ==> k in db.rows
    requires key in db.rows && HoldsMarkedJob(m, Resolved(Selected(db.rows, keys)), key, row)
    ensures row.targetTags == db.rows[key].targetTags
  {
    hide DerivePartitionKey, QueueOf;
    var items := Resolved(Selected(db.rows, keys));
    var i :| 0 <= i < |items| && KeyOf(items[i].job, items[i].stage) == key && StoresItem(m, items[i], row);
    assert keys[i] in keys;
  }

  /** Replay reaches the stage of each selected row, with the stored envelope. */
  lemma ReplaysTheSelected(db: Db, m: RunManifest, keys: seq<RowKey>)
    requires forall i :: 0 <= i < |keys| ==> keys[i] in db.rows
    requires forall i :: 0 <= i < |keys| ==> Known(m, Resolved(Selected(db.rows, keys))[i])
    requires NoRepeats(keys)
    ensures var items := Resolved(Selected(db.rows, keys));
            && (forall i :: 0 <= i < |keys| ==> m.StageInputQueue(keys[i].stage, db.rows[keys[i]].job.Resolve().partitionKey).Some?)
            && AllSent(Calls(db, m, items))
               == multiset(seq(|keys|, i requires 0 <= i < |keys| =>
                    var job := db.rows[keys[i]].job.Resolve();
                    Bound(m.StageInputQueue(keys[i].stage, job.partitionKey).value, job)))
            && (RowsAgree(db.rows) ==> forall i :: 0 <= i < |keys| ==>
                  var rows := MarkAll(db, m, items).rows;
                  keys[i] in rows && rows[keys[i]].status == Pending && rows[keys[i]].job == db.rows[keys[i]].job.Resolve())
  {
    hide MarkAll, AllSent, Calls, DerivePartitionKey, m.StageInputQueue;
    var items := Resolved(Selected(db.rows, keys));
    CallsSendEachOnce(db, m, items);
    forall i | 0 <= i < |keys| ensures Known(m, items[i]) && QueueOf(m, items[i]) == m.StageInputQueue(keys[i].stage, db.rows[keys[i]].job.Resolve().partitionKey).value {
      assert Known(m, items[i]);
      QueueIs(m, items[i]);
    }
    assert BoundJobs(m, items) == seq(|keys|, i requires 0 <= i < |keys| =>
      var job := db.rows[keys[i]].job.Resolve();
      Bound(m.StageInputQueue(keys[i].stage, job.partitionKey).value, job));
    if RowsAgree(db.rows) {
      assert forall i :: 0 <= i < |keys| ==> KeyOf(items[i].job, items[i].stage) == keys[i];
      forall i | 0 <= i < |keys|
        ensures var rows := MarkAll(db, m, items).rows;
                keys[i] in rows && rows[keys[i]].status == Pending && rows[keys[i]].job == db.rows[keys[i]].job.Resolve()
      {
        MarkedOnce(db, m, items, i);
      }
    }
  }

  /**
   * Replay: exactly the rows the filter admits, each once, are marked pending and published. When it meets no error,
   * the same replay at the same moment selects nothing more, unless it asked for PENDING rows.
   */
  method ReplayStageEligibleJobs(m: RunManifest, filter: ReplayFilter, store: RunStore, broker: FeedBroker)
    returns (result: Result<nat, FeedError>, ghost keys: seq<RowKey>)
    requires broker.store == store && broker.sent == [] && filter.runId == m.runId
    modifies store, broker
    ensures NoRepeats(keys)
    ensures forall k :: k in keys <==> k in old(store.jobStates) && Replayable(filter, old(store.clock), k, old(store.jobStates)[k])
    ensures forall k :: k in keys && !filter.force && old(store.jobStates)[k].status == RetryWaiting ==>
              IsDue(old(store.jobStates)[k].notBefore, old(store.clock))
    ensures Fed(old(store.Contents()), store.Contents(), broker.sent, m, Selected(old(store.jobStates), keys),
                if result.Ok? then None else Some(result.error))
    ensures result.Ok? ==> result.value == |keys| && store.clock == old(store.clock)
    ensures result.Ok? ==>
              var rows := old(store.jobStates);
              && (forall i :: 0 <= i < |keys| ==>
                    keys[i] in rows && m.StageInputQueue(keys[i].stage, rows[keys[i]].job.Resolve().partitionKey).Some?)
              && AllSent(broker.sent) == multiset(seq(|keys|, i requires 0 <= i < |keys| =>
                   var job := rows[keys[i]].job.Resolve();
                   Bound(m.StageInputQueue(keys[i].stage, job.partitionKey).value, job)))
    ensures result.Ok? && RowsAgree(old(store.jobStates)) ==>
              forall i :: 0 <= i < |keys| ==>
                && keys[i] in store.jobStates && store.jobStates[keys[i]].status == Pending
                && keys[i] in old(store.jobStates) && store.jobStates[keys[i]].job == old(store.jobStates)[keys[i]].job.Resolve()
    ensures result.Ok? && RowsAgree(old(store.jobStates)) ==>
              forall k :: k in store.jobStates && Replayable(filter, store.clock, k, store.jobStates[k]) <==>
                             filter.status == Some(Pending) && k in keys
  {
    hide Upsert, TargetMatches, MarkAll, Calls, AllSent, DerivePartitionKey;
    ghost var before := store.Contents();
    var states := store.ReplayableJobStates(filter);
    keys := states;
    assert forall i :: 0 <= i < |states| ==> states[i] in states;
    var error := MarkPendingAndPublish(m, Selected(store.jobStates, states), store, broker);
    if error.Some? {
      return Err(error.value), keys;
    }
    ReplaysTheSelected(before, m, keys);
    forall k | RowsAgree(before.rows) ensures k in store.jobStates && Replayable(filter, store.clock, k, store.jobStates[k]) <==>
                     filter.status == Some(Pending) && k in keys
    {
      NothingLeftToReplay(before, m, filter, store.clock, keys, k);
    }
    return Ok(|states|), keys;
  }
}
