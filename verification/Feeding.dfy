/** An uninterrupted seeding or replay, as the procedures of `Eligibility` carry it out, is a run of protocol steps. */
module Feeding {
  import opened Common
  import opened Targeting
  import opened Manifest
  import opened Jobs
  import opened Documents
  import opened Protocol
  import opened Routing
  import opened Scenarios
  import Counting
  import E = Eligibility

  function Eligibles(c: Config, items: seq<Item>): seq<E.Eligible> {
    seq(|items|, i requires 0 <= i < |items| => E.Eligible(c.Name(items[i].pos), items[i].job))
  }

  function KeysOf(items: seq<Item>): set<string> {
    set i | 0 <= i < |items| :: items[i].job.partitionKey
  }

  function IdsOf(items: seq<Item>): set<string> {
    set i | 0 <= i < |items| :: items[i].job.jobId
  }

  function DeclaredAfter(c: Config, declared: set<string>, items: seq<Item>): set<string> {
    if items == [] then declared
    else DeclaredAfter(c, declared, items[..|items| - 1]) + c.manifest.PartitionQueueSet(items[|items| - 1].job.partitionKey)
  }

  lemma {:induction false} DeclaresEach(c: Config, declared: set<string>, items: seq<Item>, i: nat)
    requires i < |items|
    ensures c.manifest.PartitionQueueSet(items[i].job.partitionKey) <= DeclaredAfter(c, declared, items)
  {
    hide c.manifest.PartitionQueueSet;
    if i < |items| - 1 {
      DeclaresEach(c, declared, items[..|items| - 1], i);
    }
  }

  // ---------------------------------------------------------------- marking

  /** The process after it has marked the first i items. */
  function AfterMarks(c: Config, s: World, f: nat, batch: Option<nat>, items: seq<Item>, i: nat): World
    requires f < |s.feeders| && i <= |items|
  {
    s.(db := E.MarkAll(s.db, c.manifest, Eligibles(c, items[..i])),
       declared := DeclaredAfter(c, s.declared, items[..i]),
       marked := s.marked + IdsOf(items[..i]))
     .SetFeeder(f, Feeding(batch, KeysOf(items[..i]), items[i..], items[..i]))
  }

  ghost predicate OnStages(c: Config, items: seq<Item>) {
    forall i :: 0 <= i < |items| ==> items[i].pos < c.N()
  }

  /** What one more item adds. */
  lemma OneMoreItem(c: Config, s: World, items: seq<Item>, i: nat)
    requires c.Valid() && i < |items| && items[i].pos < c.N()
    ensures var before, after, item := items[..i], items[..i + 1], items[i];
            && after == before + [item] && items[i..] == [item] + items[i + 1..]
            && KeysOf(after) == KeysOf(before) + {item.job.partitionKey} && IdsOf(after) == IdsOf(before) + {item.job.jobId}
            && DeclaredAfter(c, s.declared, after)
               == DeclaredAfter(c, s.declared, before) + c.manifest.PartitionQueueSet(item.job.partitionKey)
            && E.MarkAll(s.db, c.manifest, Eligibles(c, after))
               == MarkPending(E.MarkAll(s.db, c.manifest, Eligibles(c, before)), item.job, c.Name(item.pos), c.Queue(item.pos, item.job.partitionKey))
  {
    hide MarkPending, c.Valid, c.Queue, c.manifest.PartitionQueueSet, KeysOf, IdsOf, c.manifest.StageInputQueue;
    var before, after := items[..i], items[..i + 1];
    assert after == before + [items[i]] && after[..i] == before;
    EligiblesGrow(c, before, items[i]);
    InputQueueOf(c, items[i].pos, items[i].job.partitionKey);
    SetsGrow(before, items[i]);
  }

  lemma EligiblesGrow(c: Config, items: seq<Item>, item: Item)
    ensures var more := Eligibles(c, items + [item]);
            |more| == |items| + 1 && more[..|items|] == Eligibles(c, items) && more[|items|] == E.Eligible(c.Name(item.pos), item.job)
  {
  }

  lemma SetsGrow(items: seq<Item>, item: Item)
    ensures KeysOf(items + [item]) == KeysOf(items) + {item.job.partitionKey}
    ensures IdsOf(items + [item]) == IdsOf(items) + {item.job.jobId}
  {
    var more := items + [item];
    assert more[|items|] == item;
    forall key | key in KeysOf(items) ensures key in KeysOf(more) {
      var i :| 0 <= i < |items| && items[i].job.partitionKey == key;
      assert more[i] == items[i];
    }
    forall id | id in IdsOf(items) ensures id in IdsOf(more) {
      var i :| 0 <= i < |items| && items[i].job.jobId == id;
      assert more[i] == items[i];
    }
  }

  lemma DeclaresKey(c: Config, s: World, f: nat, batch: Option<nat>, items: seq<Item>, i: nat)
    requires c.Valid() && f < |s.feeders| && i < |items| && items[i].pos < c.N() && items[i].job.partitionKey !in KeysOf(items[..i])
    ensures var before := AfterMarks(c, s, f, batch, items, i);
            && Enabled(c, before, AtFeeder(f, DeclareNext))
            && Apply(c, before, AtFeeder(f, DeclareNext))
               == before.(declared := DeclaredAfter(c, s.declared, items[..i + 1]))
                        .SetFeeder(f, Feeding(batch, KeysOf(items[..i + 1]), items[i..], items[..i]))
  {
    hide c.Valid, E.MarkAll, c.manifest.PartitionQueueSet, DeclaredAfter, KeysOf, IdsOf, Eligibles;
    OneMoreItem(c, s, items, i);
  }

  lemma MarksOneItem(c: Config, s: World, f: nat, batch: Option<nat>, items: seq<Item>, i: nat)
    requires c.Valid() && f < |s.feeders| && i < |items| && items[i].pos < c.N()
    ensures var ready := AfterMarks(c, s, f, batch, items, i).(declared := DeclaredAfter(c, s.declared, items[..i + 1]))
                           .SetFeeder(f, Feeding(batch, KeysOf(items[..i + 1]), items[i..], items[..i]));
            && Enabled(c, ready, AtFeeder(f, MarkNext))
            && Apply(c, ready, AtFeeder(f, MarkNext)) == AfterMarks(c, s, f, batch, items, i + 1)
  {
    hide c.Valid, E.MarkAll, MarkPending, c.Queue, c.manifest.StageInputQueue, c.manifest.PartitionQueueSet, DeclaredAfter, KeysOf, IdsOf, Eligibles;
    OneMoreItem(c, s, items, i);
    InputQueueOf(c, items[i].pos, items[i].job.partitionKey);
    assert items[i..][1..] == items[i + 1..];
    assert s.marked + IdsOf(items[..i]) + {items[i].job.jobId} == s.marked + IdsOf(items[..i + 1]);
  }

  lemma MarksNext(c: Config, s: World, f: nat, batch: Option<nat>, items: seq<Item>, i: nat)
    requires c.Valid() && f < |s.feeders| && i < |items| && items[i].pos < c.N()
    ensures GetsTo(c, AfterMarks(c, s, f, batch, items, i), AfterMarks(c, s, f, batch, items, i + 1))
  {
    hide c.Valid, GetsTo, Enabled, Apply, E.MarkAll, KeysOf, IdsOf, Eligibles, c.manifest.PartitionQueueSet;
    var before := AfterMarks(c, s, f, batch, items, i);
    var mid := before.(declared := DeclaredAfter(c, s.declared, items[..i + 1]))
                     .SetFeeder(f, Feeding(batch, KeysOf(items[..i + 1]), items[i..], items[..i]));
    if items[i].job.partitionKey in KeysOf(items[..i]) {
      OneMoreItem(c, s, items, i);
      AlreadyDeclared(c, s.declared, items[..i], items[i].job.partitionKey);
      assert mid == before;
    } else {
      DeclaresKey(c, s, f, batch, items, i);
      GetsOneStep(c, before, AtFeeder(f, DeclareNext));
    }
    MarksOneItem(c, s, f, batch, items, i);
    GetsOneStep(c, mid, AtFeeder(f, MarkNext));
    if items[i].job.partitionKey !in KeysOf(items[..i]) {
      GetsOn(c, before, mid, AfterMarks(c, s, f, batch, items, i + 1));
    }
  }

  lemma AlreadyDeclared(c: Config, declared: set<string>, items: seq<Item>, key: string)
    requires key in KeysOf(items)
    ensures DeclaredAfter(c, declared, items) + c.manifest.PartitionQueueSet(key) == DeclaredAfter(c, declared, items)
    ensures KeysOf(items) + {key} == KeysOf(items)
  {
    hide c.manifest.PartitionQueueSet;
    var i :| 0 <= i < |items| && items[i].job.partitionKey == key;
    DeclaresEach(c, declared, items, i);
  }

  lemma {:induction false} MarksAll(c: Config, s: World, f: nat, batch: Option<nat>, items: seq<Item>, i: nat)
    requires c.Valid() && f < |s.feeders| && i <= |items| && OnStages(c, items)
    ensures GetsTo(c, AfterMarks(c, s, f, batch, items, 0), AfterMarks(c, s, f, batch, items, i))
  {
    hide c.Valid, GetsTo, AfterMarks;
    if i == 0 {
      StaysPut(c, AfterMarks(c, s, f, batch, items, 0));
    } else {
      MarksAll(c, s, f, batch, items, i - 1);
      MarksNext(c, s, f, batch, items, i - 1);
      GetsOn(c, AfterMarks(c, s, f, batch, items, 0), AfterMarks(c, s, f, batch, items, i - 1), AfterMarks(c, s, f, batch, items, i));
    }
  }

  // ---------------------------------------------------------------- publishing

  /** Nothing but the feeder's own state and what publishing moves. */
  ghost predicate OnlyQueued(s: World, s': World) {
    && s'.db == s.db && s'.now == s.now && s'.declared == s.declared && s'.workers == s.workers && s'.taps == s.taps
    && s'.marked == s.marked && s'.settled == s.settled && |s'.feeders| == |s.feeders|
  }

  function MessagesOf(c: Config, items: seq<Item>): seq<Message>
    requires c.Valid() && OnStages(c, items)
  {
    seq(|items|, i requires 0 <= i < |items| => MessageOf(c, items[i]))
  }

  ghost predicate AllDeclared(c: Config, s: World, items: seq<Item>) {
    forall i :: 0 <= i < |items| ==> items[i].pos < c.N() && Declared(c, s.declared, items[i].job.partitionKey)
  }

  lemma PublishesOneOf(c: Config, s: World, f: nat, batch: Option<nat>, keys: set<string>, marked: seq<Item>, i: nat)
    requires c.Valid() && f < |s.feeders| && i < |marked| && s.feeders[f] == Feeding(batch, keys, [], marked)
    requires marked[i].pos < c.N() && Declared(c, s.declared, marked[i].job.partitionKey)
    ensures var step := AtFeeder(f, PublishMarked(i));
            && Enabled(c, s, step)
            && var s' := Apply(c, s, step);
               && OnlyQueued(s, s') && s'.ready == s.ready + [MessageOf(c, marked[i])]
               && s'.feeders[f] == Feeding(batch, keys, [], Without(marked, i))
  {
    hide c.Valid, c.Queue, c.manifest.StageInputQueue, c.manifest.PartitionQueueSet;
    InputQueueOf(c, marked[i].pos, marked[i].job.partitionKey);
    QueueDeclared(c, s.declared, marked[i].pos, marked[i].job.partitionKey);
  }

  /** One publish leaves the rest as it was, with one item less. */
  lemma PublishesFirst(c: Config, s: World, f: nat, batch: Option<nat>, keys: set<string>, marked: seq<Item>, out: seq<Item>)
    returns (s1: World, rest: seq<Item>)
    requires c.Valid() && f < |s.feeders| && s.feeders[f] == Feeding(batch, keys, [], marked)
    requires out != [] && multiset(marked) == multiset(out) && AllDeclared(c, s, marked)
    ensures out[0].pos < c.N()
    ensures GetsTo(c, s, s1) && OnlyQueued(s, s1) && s1.feeders[f] == Feeding(batch, keys, [], rest)
    ensures s1.ready == s.ready + [MessageOf(c, out[0])]
    ensures multiset(rest) == multiset(out[1..]) && AllDeclared(c, s1, rest)
  {
    hide c.Valid, GetsTo, Enabled, Apply, MessageOf, Declared;
    assert out[0] in multiset(marked);
    var i :| 0 <= i < |marked| && marked[i] == out[0];
    var step := AtFeeder(f, PublishMarked(i));
    PublishesOneOf(c, s, f, batch, keys, marked, i);
    s1, rest := Apply(c, s, step), Without(marked, i);
    GetsOneStep(c, s, step);
    SpliceItems(marked, i);
    TailItems(out);
    forall k | 0 <= k < |rest| ensures rest[k].pos < c.N() && Declared(c, s1.declared, rest[k].job.partitionKey) {
      var x :| 0 <= x < |marked| && marked[x] == rest[k];
    }
  }

  /** The marked items can be published in any order. */
  lemma {:induction false} PublishesInAnyOrder(c: Config, s: World, f: nat, batch: Option<nat>, keys: set<string>, marked: seq<Item>, out: seq<Item>)
    returns (s': World)
    requires c.Valid() && f < |s.feeders| && s.feeders[f] == Feeding(batch, keys, [], marked)
    requires multiset(marked) == multiset(out) && AllDeclared(c, s, marked)
    ensures OnStages(c, out)
    ensures GetsTo(c, s, s') && OnlyQueued(s, s') && s'.feeders[f] == Feeding(batch, keys, [], [])
    ensures s'.ready == s.ready + MessagesOf(c, out)
    decreases |out|
  {
    hide c.Valid, GetsTo, MessageOf, AllDeclared;
    if out == [] {
      assert |marked| == |multiset(marked)| == 0;
      s' := s;
      StaysPut(c, s);
    } else {
      var s1, rest := PublishesFirst(c, s, f, batch, keys, marked, out);
      s' := PublishesInAnyOrder(c, s1, f, batch, keys, rest, out[1..]);
      GetsOn(c, s, s1, s');
      MessagesSplit(c, out);
      Regroup(s.ready, [MessageOf(c, out[0])], MessagesOf(c, out[1..]));
    }
  }

  lemma MessagesSplit(c: Config, out: seq<Item>)
    requires c.Valid() && out != [] && out[0].pos < c.N() && OnStages(c, out[1..])
    ensures OnStages(c, out) && MessagesOf(c, out) == [MessageOf(c, out[0])] + MessagesOf(c, out[1..])
  {
    hide MessageOf, c.Valid;
    assert out == [out[0]] + out[1..];
  }

  lemma SpliceItems(items: seq<Item>, i: nat)
    requires i < |items|
    ensures multiset(Without(items, i)) == multiset(items) - multiset{items[i]}
    ensures forall k :: 0 <= k < |Without(items, i)| ==> Without(items, i)[k] in items
  {
    assert items == items[..i] + ([items[i]] + items[i + 1..]);
  }

  lemma TailItems(items: seq<Item>)
    requires items != []
    ensures multiset(items[1..]) == multiset(items) - multiset{items[0]}
  {
    assert items == [items[0]] + items[1..];
  }

  // ---------------------------------------------------------------- the order of the publish calls

  function QueueOfItem(c: Config, item: Item): string {
    E.QueueOf(c.manifest, E.Eligible(c.Name(item.pos), item.job))
  }

  function ItemsFor(c: Config, items: seq<Item>, queue: string): seq<Item> {
    if items == [] then []
    else
      var last := items[|items| - 1];
      ItemsFor(c, items[..|items| - 1], queue) + if QueueOfItem(c, last) == queue then [last] else []
  }

  /** The items queue by queue. */
  function Grouped(c: Config, items: seq<Item>, order: seq<string>): seq<Item> {
    if order == [] then []
    else Grouped(c, items, order[..|order| - 1]) + ItemsFor(c, items, order[|order| - 1])
  }

  /** All (queue, job) pairs that calls publish, in order. */
  function PublishedBy(calls: seq<E.Call>): seq<E.Bound> {
    if calls == [] then [] else PublishedBy(calls[..|calls| - 1]) + E.Sent(calls[|calls| - 1])
  }

  function Bounds(c: Config, items: seq<Item>): seq<E.Bound> {
    seq(|items|, i requires 0 <= i < |items| => E.Bound(QueueOfItem(c, items[i]), items[i].job))
  }

  lemma {:induction false} ItemsForAreJobsFor(c: Config, items: seq<Item>, queue: string)
    ensures E.JobsFor(c.manifest, Eligibles(c, items), queue) == seq(|ItemsFor(c, items, queue)|, i requires 0 <= i < |ItemsFor(c, items, queue)| => ItemsFor(c, items, queue)[i].job)
    ensures forall x :: x in ItemsFor(c, items, queue) ==> QueueOfItem(c, x) == queue
  {
    hide E.QueueOf;
    if items != [] {
      var rest := items[..|items| - 1];
      ItemsForAreJobsFor(c, rest, queue);
      assert Eligibles(c, items)[..|items| - 1] == Eligibles(c, rest);
    }
  }

  lemma {:induction false} GroupedIsPublished(c: Config, items: seq<Item>, order: seq<string>, stored: Db)
    ensures PublishedBy(E.PublishesTo(c.manifest, Eligibles(c, items), order, stored)) == Bounds(c, Grouped(c, items, order))
  {
    hide E.QueueOf, E.JobsFor, ItemsFor;
    if order != [] {
      var n := |order| - 1;
      var queue := order[n];
      GroupedIsPublished(c, items, order[..n], stored);
      var calls := E.PublishesTo(c.manifest, Eligibles(c, items), order, stored);
      assert calls[..n] == E.PublishesTo(c.manifest, Eligibles(c, items), order[..n], stored);
      ItemsForAreJobsFor(c, items, queue);
      assert E.Sent(calls[n]) == Bounds(c, ItemsFor(c, items, queue));
    }
  }

  lemma {:induction false} ItemsForCounts(c: Config, items: seq<Item>, x: Item)
    ensures multiset(ItemsFor(c, items, QueueOfItem(c, x)))[x] == multiset(items)[x]
  {
    hide E.QueueOf, QueueOfItem;
    if items != [] {
      var rest, last := items[..|items| - 1], items[|items| - 1];
      ItemsForCounts(c, rest, x);
      assert items == rest + [last];
      assert ItemsFor(c, items, QueueOfItem(c, x)) == ItemsFor(c, rest, QueueOfItem(c, x)) + if QueueOfItem(c, last) == QueueOfItem(c, x) then [last] else [];
    }
  }

  lemma {:induction false} ItemsForOthers(c: Config, items: seq<Item>, queue: string, x: Item)
    requires QueueOfItem(c, x) != queue
    ensures multiset(ItemsFor(c, items, queue))[x] == 0
  {
    hide E.QueueOf;
    if items != [] {
      ItemsForOthers(c, items[..|items| - 1], queue, x);
    }
  }

  lemma {:induction false} GroupedCounts(c: Config, items: seq<Item>, order: seq<string>, x: Item)
    requires NoDuplicates(order)
    ensures multiset(Grouped(c, items, order))[x] == if QueueOfItem(c, x) in order then multiset(items)[x] else 0
  {
    hide E.QueueOf, ItemsFor;
    if order != [] {
      var n := |order| - 1;
      GroupedCounts(c, items, order[..n], x);
      assert order == order[..n] + [order[n]];
      if QueueOfItem(c, x) == order[n] {
        ItemsForCounts(c, items, x);
      } else {
        ItemsForOthers(c, items, order[n], x);
      }
    }
  }

  /** Grouping by queue loses and adds nothing. */
  lemma GroupingConserves(c: Config, items: seq<Item>)
    ensures multiset(Grouped(c, items, E.QueueOrder(c.manifest, Eligibles(c, items)))) == multiset(items)
  {
    hide E.QueueOf;
    var order := E.QueueOrder(c.manifest, Eligibles(c, items));
    E.OrderIsDistinct(c.manifest, Eligibles(c, items));
    forall x: Item ensures multiset(Grouped(c, items, order))[x] == multiset(items)[x] {
      GroupedCounts(c, items, order, x);
      if x in items {
        var i :| 0 <= i < |items| && items[i] == x;
        E.OrderHasQueues(c.manifest, Eligibles(c, items), QueueOfItem(c, x));
        assert E.QueueOf(c.manifest, Eligibles(c, items)[i]) == QueueOfItem(c, x);
      }
    }
  }

  // ---------------------------------------------------------------- a whole feed

  /** The (queue, job) pairs of messages. */
  function Wire(messages: seq<Message>): seq<E.Bound> {
    seq(|messages|, i requires 0 <= i < |messages| => E.Bound(messages[i].queue, messages[i].job))
  }

  /** What a feed leaves: the rows of `MarkAll`, and the queues grown by what the procedure's calls publish, in order. */
  ghost predicate FedTo(c: Config, s: World, s': World, db: Db, items: seq<E.Eligible>) {
    && s'.db == E.MarkAll(db, c.manifest, items)
    && s'.workers == s.workers && s'.taps == s.taps && s'.now == s.now && |s'.feeders| == |s.feeders|
    && exists sent :: s'.ready == s.ready + sent && Wire(sent) == PublishedBy(E.Calls(db, c.manifest, items))
  }

  lemma FeedIsProtocolSteps(c: Config, s: World, f: nat, batch: Option<nat>, items: seq<Item>) returns (s': World)
    requires c.Valid() && f < |s.feeders| && OnStages(c, items) && s.feeders[f] == Feeding(batch, {}, items, [])
    ensures GetsTo(c, s, s') && FedTo(c, s, s', s.db, Eligibles(c, items)) && s'.feeders[f] == Feeding(batch, KeysOf(items), [], [])
  {
    hide c.Valid, GetsTo, E.MarkAll, Grouped, MessageOf, E.QueueOrder, E.Calls, PublishedBy;
    StartsUnmarked(c, s, f, batch, items);
    MarksAll(c, s, f, batch, items, |items|);
    var s1 := AfterMarks(c, s, f, batch, items, |items|);
    assert items[..|items|] == items && items[|items|..] == [];
    var out := Grouped(c, items, E.QueueOrder(c.manifest, Eligibles(c, items)));
    GroupingConserves(c, items);
    forall i | 0 <= i < |items| ensures Declared(c, s1.declared, items[i].job.partitionKey) {
      DeclaresEach(c, s.declared, items, i);
    }
    s' := PublishesInAnyOrder(c, s1, f, batch, KeysOf(items), items, out);
    GetsOn(c, s, s1, s');
    PublishedWire(c, s.db, items, out);
  }

  lemma StartsUnmarked(c: Config, s: World, f: nat, batch: Option<nat>, items: seq<Item>)
    requires f < |s.feeders| && s.feeders[f] == Feeding(batch, {}, items, [])
    ensures AfterMarks(c, s, f, batch, items, 0) == s
  {
    assert items[..0] == [] && items[0..] == items;
    assert KeysOf([]) == {} && IdsOf([]) == {} && s.marked + {} == s.marked;
    assert s.feeders[f := s.feeders[f]] == s.feeders;
  }

  lemma PublishedWire(c: Config, db: Db, items: seq<Item>, out: seq<Item>)
    requires c.Valid() && OnStages(c, out) && out == Grouped(c, items, E.QueueOrder(c.manifest, Eligibles(c, items)))
    ensures Wire(MessagesOf(c, out)) == PublishedBy(E.Calls(db, c.manifest, Eligibles(c, items)))
  {
    hide Grouped, E.MarkAll, E.QueueOrder, c.Valid, E.Declarations;
    var eligibles := Eligibles(c, items);
    var stored := E.MarkAll(db, c.manifest, eligibles);
    var order := E.QueueOrder(c.manifest, eligibles);
    GroupedIsPublished(c, items, order, stored);
    assert E.Publications(c.manifest, eligibles, stored) == E.PublishesTo(c.manifest, eligibles, order, stored);
    PublishedAppend(E.Declarations(db, c.manifest, eligibles), E.Publications(c.manifest, eligibles, stored));
    E.DeclarationKeys(db, c.manifest, eligibles);
    NothingPublished(E.Declarations(db, c.manifest, eligibles));
    forall i | 0 <= i < |out| ensures c.Queue(out[i].pos, out[i].job.partitionKey) == QueueOfItem(c, out[i]) {
      InputQueueOf(c, out[i].pos, out[i].job.partitionKey);
    }
  }

  lemma {:induction false} PublishedAppend(a: seq<E.Call>, b: seq<E.Call>)
    ensures PublishedBy(a + b) == PublishedBy(a) + PublishedBy(b)
  {
    hide E.Sent;
    if b == [] {
      assert a + b == a;
    } else {
      var n := |b| - 1;
      assert (a + b)[..|a + b| - 1] == a + b[..n];
      PublishedAppend(a, b[..n]);
      Regroup(PublishedBy(a), PublishedBy(b[..n]), E.Sent(b[n]));
    }
  }

  lemma {:induction false} NothingPublished(calls: seq<E.Call>)
    requires forall i :: 0 <= i < |calls| ==> calls[i].Declare?
    ensures PublishedBy(calls) == []
  {
    if calls != [] {
      NothingPublished(calls[..|calls| - 1]);
    }
  }

  // ---------------------------------------------------------------- seeding

  lemma SeedItemsAreEligible(c: Config, jobs: seq<Job>)
    requires c.Valid()
    ensures c.N() > 0 && c.manifest.stages != []
    ensures Eligibles(c, FirstStageItems(jobs)) == E.Resolved(E.FirstStage(c.manifest, jobs)) && OnStages(c, FirstStageItems(jobs))
  {
  }

  lemma AcceptedIsSeedable(c: Config, s: World, jobs: seq<Job>)
    requires c.Valid() && E.Accepted(c.manifest, jobs, s.db.batches)
    ensures Seedable(c, s, jobs)
  {
    assert c.manifest.stages != [];
    forall i | 0 <= i < |jobs| ensures jobs[i].jobId !in ActiveIds(s.db.batches, c.Run()) {
      assert JobIds(jobs)[i] == jobs[i].jobId;
      assert jobs[i].jobId in Counting.IdSet(JobIds(jobs));
    }
  }

  /** A seeding without errors is the steps Seed, then DeclareNext and MarkNext, then PublishMarked, then FinishFeed. */
  lemma SeedingIsProtocolSteps(c: Config, s: World, f: nat, jobs: seq<Job>) returns (s': World)
    requires c.Valid() && f < |s.feeders| && s.feeders[f].Resting? && E.Accepted(c.manifest, jobs, s.db.batches)
    ensures c.manifest.stages != []
    ensures GetsTo(c, s, s') && |s'.feeders| == |s.feeders| && s'.feeders[f].Resting?
    ensures var created := AddBatch(s.db, c.Run(), JobIds(jobs));
            && FedTo(c, s, s'.(db := s'.db.(batches := created.batches)), created, E.Resolved(E.FirstStage(c.manifest, jobs)))
            && s'.db.batches == s.db.batches + [SeedBatch(c.Run(), JobIds(jobs), |jobs|, Published)]
  {
    hide c.Valid, GetsTo, E.MarkAll, E.Calls, PublishedBy, FirstStageItems, Seedable, E.Accepted, E.FirstStage, E.Resolved, Eligibles, OnStages;
    SeedItemsAreEligible(c, jobs);
    AcceptedIsSeedable(c, s, jobs);
    var created := AddBatch(s.db, c.Run(), JobIds(jobs));
    var b := |s.db.batches|;
    var s1 := Apply(c, s, AtFeeder(f, Seed(jobs)));
    GetsOneStep(c, s, AtFeeder(f, Seed(jobs)));
    var s2 := FeedIsProtocolSteps(c, s1, f, Some(b), FirstStageItems(jobs));
    GetsOn(c, s, s1, s2);
    MarkingKeepsBatches(c, created, Eligibles(c, FirstStageItems(jobs)));
    GetsOneStep(c, s2, AtFeeder(f, FinishFeed));
    s' := Apply(c, s2, AtFeeder(f, FinishFeed));
    GetsOn(c, s, s2, s');
  }

  lemma MarkingKeepsBatches(c: Config, db: Db, items: seq<E.Eligible>)
    ensures E.MarkAll(db, c.manifest, items).batches == db.batches
  {
    E.MarkingWritesRows(db, c.manifest, items, RowKey("", "", ""));
  }

  // ---------------------------------------------------------------- replay

  function ReadItems(c: Config, rows: Rows, places: seq<(string, nat)>): seq<Item>
    requires forall i :: 0 <= i < |places| ==> c.Key(places[i].0, places[i].1) in rows
  {
    seq(|places|, i requires 0 <= i < |places| => Item(places[i].1, rows[c.Key(places[i].0, places[i].1)].job.Resolve()))
  }

  ghost predicate StoredPlaces(c: Config, rows: Rows, places: seq<(string, nat)>) {
    forall i :: 0 <= i < |places| ==> places[i].1 < c.N() && c.Key(places[i].0, places[i].1) in rows
  }

  lemma {:induction false} ReadsAll(c: Config, s: World, f: nat, places: seq<(string, nat)>, i: nat)
    requires f < |s.feeders| && StoredPlaces(c, s.db.rows, places) && i <= |places|
    ensures GetsTo(c, s.SetFeeder(f, Reading([])), s.SetFeeder(f, Reading(ReadItems(c, s.db.rows, places[..i]))))
  {
    hide GetsTo, DerivePartitionKey;
    if i == 0 {
      assert ReadItems(c, s.db.rows, places[..0]) == [];
      StaysPut(c, s.SetFeeder(f, Reading([])));
    } else {
      ReadsAll(c, s, f, places, i - 1);
      var before := s.SetFeeder(f, Reading(ReadItems(c, s.db.rows, places[..i - 1])));
      var step := AtFeeder(f, ReadRow(places[i - 1].0, places[i - 1].1));
      GetsOneStep(c, before, step);
      assert ReadItems(c, s.db.rows, places[..i])
          == ReadItems(c, s.db.rows, places[..i - 1]) + [Item(places[i - 1].1, s.db.rows[c.Key(places[i - 1].0, places[i - 1].1)].job.Resolve())];
      assert Apply(c, before, step) == s.SetFeeder(f, Reading(ReadItems(c, s.db.rows, places[..i])));
      GetsOn(c, s.SetFeeder(f, Reading([])), before, s.SetFeeder(f, Reading(ReadItems(c, s.db.rows, places[..i]))));
    }
  }

  function PlaceKeys(c: Config, places: seq<(string, nat)>): seq<RowKey> {
    seq(|places|, i requires 0 <= i < |places| => c.Key(places[i].0, places[i].1))
  }

  /** A replay without errors of the rows at these places is OpenReplay, one ReadRow each, CloseReplayRead, and a feed. */
  lemma ReplayIsProtocolSteps(c: Config, s: World, f: nat, places: seq<(string, nat)>) returns (s': World)
    requires c.Valid() && f < |s.feeders| && s.feeders[f].Resting? && StoredPlaces(c, s.db.rows, places)
    ensures forall i :: 0 <= i < |places| ==> PlaceKeys(c, places)[i] in s.db.rows
    ensures GetsTo(c, s, s') && |s'.feeders| == |s.feeders| && s'.feeders[f].Resting?
    ensures FedTo(c, s, s', s.db, E.Resolved(E.Selected(s.db.rows, PlaceKeys(c, places))))
  {
    hide c.Valid, GetsTo, E.MarkAll, E.Calls, PublishedBy, DerivePartitionKey;
    var items := ReadItems(c, s.db.rows, places);
    var s1 := s.SetFeeder(f, Reading([]));
    var s2 := s.SetFeeder(f, Reading(items));
    var s3 := s.SetFeeder(f, Feeding(None, {}, items, []));
    assert Apply(c, s, AtFeeder(f, OpenReplay)) == s1;
    GetsOneStep(c, s, AtFeeder(f, OpenReplay));
    assert places[..|places|] == places;
    ReadsAll(c, s, f, places, |places|);
    GetsOn(c, s, s1, s2);
    assert Apply(c, s2, AtFeeder(f, CloseReplayRead)) == s3;
    GetsOneStep(c, s2, AtFeeder(f, CloseReplayRead));
    GetsOn(c, s, s2, s3);
    var s4 := FeedIsProtocolSteps(c, s3, f, None, items);
    GetsOn(c, s, s3, s4);
    GetsOneStep(c, s4, AtFeeder(f, FinishFeed));
    s' := Apply(c, s4, AtFeeder(f, FinishFeed));
    GetsOn(c, s, s4, s');
    assert Eligibles(c, items) == E.Resolved(E.Selected(s.db.rows, PlaceKeys(c, places)));
  }
}
