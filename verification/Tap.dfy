/** The terminal tap (pipeline/tap.py): batches of finished jobs are recorded, then acknowledged. */
module TerminalTaps {
  import opened Common
  import opened Targeting
  import opened Manifest
  import opened Jobs
  import opened Documents
  import opened Store
  import opened StageExecutions
  import opened Protocol
  import opened Workers
  import opened TerminalChain

  // ---------------------------------------------------------------- what recording a batch means

  function BatchIds(batch: seq<Delivery>): set<string> {
    set i | 0 <= i < |batch| :: batch[i].job.jobId
  }

  lemma BatchIdsGrow(batch: seq<Delivery>, i: nat)
    requires i < |batch|
    ensures BatchIds(batch[..i + 1]) == BatchIds(batch[..i]) + {batch[i].job.jobId}
  {
    var before, after := batch[..i], batch[..i + 1];
    forall id | id in BatchIds(before) ensures id in BatchIds(after) {
      var j :| 0 <= j < |before| && before[j].job.jobId == id;
      assert after[j] == before[j];
    }
    assert after[i] == batch[i];
    forall id | id in BatchIds(after) ensures id in BatchIds(before) + {batch[i].job.jobId} {
      var j :| 0 <= j < |after| && after[j].job.jobId == id;
      assert j < i ==> before[j] == after[j];
    }
  }

  /** The log gains exactly the batch's ids, however often a job occurs in it. */
  lemma RecordingAddsIds(db: Db, batch: seq<Delivery>, stage: string, runId: string)
    requires forall i :: 0 <= i < |batch| ==> batch[i].job.runId == runId
    ensures TerminalIds(RecordTerminalsIn(db, batch, stage).events, runId) == TerminalIds(db.events, runId) + BatchIds(batch)
  {
    hide TerminalRows;
    RowsLeaveTheRest(db, batch, stage);
    var before, after := db.events, RecordTerminalsIn(db, batch, stage).events;
    assert after == before + TerminalEvents(batch, stage);
    forall id | id in TerminalIds(after, runId) ensures id in TerminalIds(before, runId) + BatchIds(batch) {
      var i :| 0 <= i < |after| && after[i].runId == runId && after[i].kind == TerminalEvent && after[i].jobId == id;
      if i < |before| {
        assert before[i] == after[i];
      } else {
        assert after[i] == TerminalOf(batch[i - |before|].job, stage);
      }
    }
    forall id | id in TerminalIds(before, runId) ensures id in TerminalIds(after, runId) {
      var i :| 0 <= i < |before| && before[i].runId == runId && before[i].kind == TerminalEvent && before[i].jobId == id;
      assert after[i] == before[i];
    }
    forall id | id in BatchIds(batch) ensures id in TerminalIds(after, runId) {
      var i :| 0 <= i < |batch| && batch[i].job.jobId == id;
      assert after[|before| + i] == TerminalOf(batch[i].job, stage);
    }
  }

  lemma {:induction false} RowsLeaveTheRest(db: Db, batch: seq<Delivery>, stage: string)
    ensures var after := TerminalRows(db, batch, stage);
            after.events == db.events && after.attempts == db.attempts && after.batches == db.batches && after.holds == db.holds
  {
    hide Upsert;
    if batch != [] {
      RowsLeaveTheRest(db, batch[..|batch| - 1], stage);
    }
  }

  predicate InBatch(batch: seq<Delivery>, stage: string, key: RowKey) {
    exists i :: 0 <= i < |batch| && KeyOf(batch[i].job, stage) == key
  }

  lemma InBatchGrows(batch: seq<Delivery>, stage: string, key: RowKey)
    requires batch != []
    ensures InBatch(batch, stage, key) <==> InBatch(batch[..|batch| - 1], stage, key) || KeyOf(batch[|batch| - 1].job, stage) == key
  {
    var rest := batch[..|batch| - 1];
    if InBatch(rest, stage, key) {
      var i :| 0 <= i < |rest| && KeyOf(rest[i].job, stage) == key;
      assert batch[i] == rest[i];
    }
    if InBatch(batch, stage, key) {
      var i :| 0 <= i < |batch| && KeyOf(batch[i].job, stage) == key;
      assert i < |rest| ==> rest[i] == batch[i];
    }
  }

  /** Every job of the batch has a TERMINAL row afterwards, keeping its count and detail, and no other row changes. */
  lemma {:induction false} RecordingMarksRows(db: Db, batch: seq<Delivery>, stage: string, key: RowKey)
    ensures var after := RecordTerminalsIn(db, batch, stage).rows;
            && (InBatch(batch, stage, key) ==>
                  key in after && after[key].status == Terminal && after[key].notBefore.None? && after[key].holdId.None?
                  && after[key].attemptCount == (if key in db.rows then db.rows[key].attemptCount else 0)
                  && after[key].failureDetail == (if key in db.rows then db.rows[key].failureDetail else None))
            && (!InBatch(batch, stage, key) ==> (key in after <==> key in db.rows) && (key in db.rows ==> after[key] == db.rows[key]))
  {
    if batch != [] {
      RecordingMarksRows(db, batch[..|batch| - 1], stage, key);
      InBatchGrows(batch, stage, key);
    }
  }

  // ---------------------------------------------------------------- the tap object

  function Acks(n: nat, stored: Db): seq<Sending> {
    seq(n, _ => AckDelivery(stored))
  }

  class TerminalTap {
    const runId: string
    const batchSize: int
    const execution: StageExecution
    const channel: Channel
    var pending: seq<Delivery>
    var terminalJobIds: set<string>
    var done: bool

    /** Pending deliveries are of this run, are not known yet, and never fill a batch between callbacks. */
    ghost predicate Valid()
      reads this
    {
      && execution.stage.name == TERMINAL_STAGE && execution.stage.durable && channel.store == execution.store
      && (forall i :: 0 <= i < |pending| ==> pending[i].job.runId == runId && pending[i].job.jobId !in terminalJobIds)
      && (pending == [] || |pending| < batchSize)
    }

    constructor (runId: string, channel: Channel, batchSize: int)
      ensures Valid() && this.runId == runId && this.channel == channel && this.batchSize == batchSize
      ensures execution.store == channel.store && fresh(execution)
      ensures pending == [] && terminalJobIds == TerminalIds(channel.store.events, runId)
      ensures done <==> |TerminalIds(channel.store.events, runId)| >= ExpectedCount(channel.store.seedBatches, runId)
    {
      this.runId, this.batchSize, this.channel := runId, batchSize, channel;
      execution := new StageExecution(channel.store, StageSettings(TERMINAL_STAGE, true, 3, 300));
      pending, done := [], false;
      new;
      terminalJobIds := ReadTerminalJobIds();
      var expected := channel.store.ExpectedJobCount(runId);
      if |terminalJobIds| >= expected {
        done := true;
      }
    }

    method ReadTerminalJobIds() returns (ids: set<string>)
      ensures ids == TerminalIds(channel.store.events, runId)
      ensures var events := channel.store.events;
              forall id :: id in ids <==>
                exists i :: 0 <= i < |events| && events[i].runId == runId && events[i].kind == TerminalEvent && events[i].jobId == id
    {
      var events := channel.store.events;
      ids := {};
      for i := 0 to |events|
        invariant ids == TerminalIds(events[..i], runId)
      {
        assert events[..i + 1] == events[..i] + [events[i]];
        TerminalIdsGrow(events[..i], events[i], runId);
        if events[i].runId == runId && events[i].kind == TerminalEvent {
          ids := ids + {events[i].jobId};
        }
      }
      assert events[..|events|] == events;
    }

    /** Another run's job or a known one is acknowledged alone; any other waits for a flush, which comes when the batch is full. */
    method OnMessage(job: Job, queue: string)
      requires Valid()
      modifies this, channel, execution.store
      ensures Valid()
      ensures var fresh_ := job.runId == runId && job.jobId !in old(terminalJobIds);
              var batch := old(pending) + [Delivery(job, queue)];
              && (!fresh_ ==> pending == old(pending) && channel.sent == old(channel.sent) + Acks(1, execution.store.Contents()))
              && (fresh_ && |batch| < batchSize ==> pending == batch && channel.sent == old(channel.sent))
              && (!fresh_ || |batch| < batchSize ==>
                    terminalJobIds == old(terminalJobIds) && done == old(done)
                    && execution.store.Contents() == old(execution.store.Contents()))
              && (fresh_ && |batch| >= batchSize ==>
                    Flushed(batch, old(terminalJobIds), old(done), old(execution.store.Contents()), old(channel.sent)))
    {
      if job.runId != runId || job.jobId in terminalJobIds {
        channel.BasicAck();
        return;
      }
      pending := pending + [Delivery(job, queue)];
      if |pending| >= batchSize {
        FlushNow();
      }
    }

    /** The state a flush of `batch` leaves: everything recorded before the first acknowledgement. */
    ghost predicate Flushed(batch: seq<Delivery>, known: set<string>, wasDone: bool, before: Db, sent: seq<Sending>)
      reads this, channel, execution.store
    {
      var after := RecordTerminalsIn(before, batch, TERMINAL_STAGE);
      && pending == [] && execution.store.Contents() == after
      && terminalJobIds == known + BatchIds(batch)
      && channel.sent == sent + Acks(|batch|, after)
      && (done <==> wasDone || |terminalJobIds| >= ExpectedCount(before.batches, runId))
      && (known <= TerminalIds(before.events, runId) ==> terminalJobIds <= TerminalIds(after.events, runId))
      && (known == TerminalIds(before.events, runId) ==> terminalJobIds == TerminalIds(after.events, runId))
    }

    method FlushPending()
      requires Valid()
      modifies this, channel, execution.store
      ensures Valid()
      ensures old(pending) != [] ==>
                Flushed(old(pending), old(terminalJobIds), old(done), old(execution.store.Contents()), old(channel.sent))
      ensures old(pending) == [] ==>
                pending == [] && terminalJobIds == old(terminalJobIds) && done == old(done)
                && execution.store.Contents() == old(execution.store.Contents()) && channel.sent == old(channel.sent)
    {
      if pending != [] {
        FlushNow();
      }
    }

    /** The loop that remembers and acknowledges a recorded batch. */
    method Acknowledge(batch: seq<Delivery>)
      requires channel.store == execution.store
      modifies this`terminalJobIds, channel
      ensures terminalJobIds == old(terminalJobIds) + BatchIds(batch)
      ensures channel.sent == old(channel.sent) + Acks(|batch|, execution.store.Contents())
    {
      for i := 0 to |batch|
        invariant terminalJobIds == old(terminalJobIds) + BatchIds(batch[..i])
        invariant channel.sent == old(channel.sent) + Acks(i, execution.store.Contents())
      {
        BatchIdsGrow(batch, i);
        terminalJobIds := terminalJobIds + {batch[i].job.jobId};
        channel.BasicAck();
      }
      assert batch[..|batch|] == batch;
    }

    /** `_flush_pending` past its guard. */
    method FlushNow()
      requires execution.stage.name == TERMINAL_STAGE && execution.stage.durable && channel.store == execution.store
      requires pending != [] && forall i :: 0 <= i < |pending| ==> pending[i].job.runId == runId
      modifies this, channel, execution.store
      ensures Valid()
      ensures Flushed(old(pending), old(terminalJobIds), old(done), old(execution.store.Contents()), old(channel.sent))
    {
      var batch := pending;
      pending := [];
      execution.RecordTerminalBatch(batch);
      Acknowledge(batch);
      RecordingAddsIds(old(execution.store.Contents()), batch, TERMINAL_STAGE, runId);
      RowsLeaveTheRest(old(execution.store.Contents()), batch, TERMINAL_STAGE);
      var expected := execution.store.ExpectedJobCount(runId);
      if |terminalJobIds| >= expected {
        done := true;
      }
    }
  }

  // ---------------------------------------------------------------- a flush is a run of protocol steps

  ghost predicate TapPerforms(c: Config, s: World, t: nat, actions: seq<TapAction>, s': World)
    decreases |actions|
  {
    if actions == [] then s' == s
    else TapCan(c, s, t, actions[0]) && TapPerforms(c, TapDoes(c, s, t, actions[0]), t, actions[1..], s')
  }

  lemma {:induction false} TapConcat(c: Config, s: World, t: nat, first: seq<TapAction>, mid: World, second: seq<TapAction>, s': World)
    requires TapPerforms(c, s, t, first, mid) && TapPerforms(c, mid, t, second, s')
    ensures TapPerforms(c, s, t, first + second, s')
    decreases |first|
  {
    hide TapCan, TapDoes;
    if first == [] {
      assert first + second == second;
    } else {
      TapConcat(c, TapDoes(c, s, t, first[0]), t, first[1..], mid, second, s');
      assert (first + second)[1..] == first[1..] + second;
    }
  }

  function Times(a: TapAction, n: nat): seq<TapAction> {
    if n == 0 then [] else [a] + Times(a, n - 1)
  }

  lemma TapOnce(c: Config, s: World, t: nat, a: TapAction, mid: World, rest: seq<TapAction>, s': World)
    requires TapCan(c, s, t, a) && TapDoes(c, s, t, a) == mid && TapPerforms(c, mid, t, rest, s')
    ensures TapPerforms(c, s, t, [a] + rest, s')
  {
    hide TapCan, TapDoes;
    assert ([a] + rest)[1..] == rest;
  }

  function Deliveries(held: seq<Message>): seq<Delivery> {
    seq(|held|, i requires 0 <= i < |held| => Delivery(held[i].job, held[i].queue))
  }

  function PutTap(s: World, db: Db, settled: set<string>, t: nat, tap: Tap): World
    requires t < |s.taps|
  {
    s.(db := db, settled := settled).SetTap(t, tap)
  }

  lemma {:induction false} WritesRows(c: Config, s: World, t: nat, tap: Tap, next: nat)
    requires t < |s.taps| && next < |tap.held|
    ensures var batch := Deliveries(tap.held);
            TapPerforms(c, PutTap(s, TerminalRows(s.db, batch[..next], TERMINAL_STAGE), s.settled, t, tap.(phase := WritingRows(next))), t,
                        Times(WriteTerminalRow, |batch| - next),
                        PutTap(s, TerminalRows(s.db, batch, TERMINAL_STAGE), s.settled, t, tap.(phase := AppendingEvents(0))))
    decreases |tap.held| - next
  {
    hide Upsert, TapPerforms;
    var batch := Deliveries(tap.held);
    var end := PutTap(s, TerminalRows(s.db, batch, TERMINAL_STAGE), s.settled, t, tap.(phase := AppendingEvents(0)));
    var s0 := PutTap(s, TerminalRows(s.db, batch[..next], TERMINAL_STAGE), s.settled, t, tap.(phase := WritingRows(next)));
    assert batch[..next + 1][..next] == batch[..next];
    var phase := if next + 1 == |batch| then AppendingEvents(0) else WritingRows(next + 1);
    var s1 := PutTap(s, TerminalRows(s.db, batch[..next + 1], TERMINAL_STAGE), s.settled, t, tap.(phase := phase));
    assert TapDoes(c, s0, t, WriteTerminalRow) == s1;
    if next + 1 == |batch| {
      assert batch[..next + 1] == batch;
      TapRests(c, end, t);
    } else {
      WritesRows(c, s, t, tap, next + 1);
    }
    TapOnce(c, s0, t, WriteTerminalRow, s1, Times(WriteTerminalRow, |batch| - next - 1), end);
  }

  lemma TapRests(c: Config, s: World, t: nat)
    ensures TapPerforms(c, s, t, [], s)
    ensures TapPerforms(c, s, t, Times(WriteTerminalRow, 0), s) && TapPerforms(c, s, t, Times(AppendTerminalEvent, 0), s)
    ensures TapPerforms(c, s, t, Times(AckHeld, 0), s)
  {
  }

  lemma {:induction false} AppendsEvents(c: Config, s: World, t: nat, tap: Tap, next: nat)
    requires t < |s.taps| && next < |tap.held|
    ensures var events := TerminalEvents(Deliveries(tap.held), TERMINAL_STAGE);
            TapPerforms(c, PutTap(s, s.db.(events := s.db.events + events[..next]), s.settled, t, tap.(phase := AppendingEvents(next))), t,
                        Times(AppendTerminalEvent, |tap.held| - next),
                        PutTap(s, s.db.(events := s.db.events + events), s.settled, t, tap.(phase := Acking(0))))
    decreases |tap.held| - next
  {
    hide TapPerforms;
    var events := TerminalEvents(Deliveries(tap.held), TERMINAL_STAGE);
    var end := PutTap(s, s.db.(events := s.db.events + events), s.settled, t, tap.(phase := Acking(0)));
    var s0 := PutTap(s, s.db.(events := s.db.events + events[..next]), s.settled, t, tap.(phase := AppendingEvents(next)));
    assert (s.db.events + events[..next]) + [events[next]] == s.db.events + events[..next + 1];
    var phase := if next + 1 == |events| then Acking(0) else AppendingEvents(next + 1);
    var s1 := PutTap(s, s.db.(events := s.db.events + events[..next + 1]), s.settled, t, tap.(phase := phase));
    assert TapDoes(c, s0, t, AppendTerminalEvent) == s1;
    if next + 1 == |events| {
      assert events[..next + 1] == events;
      TapRests(c, end, t);
    } else {
      AppendsEvents(c, s, t, tap, next + 1);
    }
    TapOnce(c, s0, t, AppendTerminalEvent, s1, Times(AppendTerminalEvent, |tap.held| - next - 1), end);
  }

  lemma {:induction false} AcksAll(c: Config, s: World, t: nat, tap: Tap, next: nat)
    requires t < |s.taps| && next <= |tap.held|
    ensures var batch := Deliveries(tap.held);
            TapPerforms(c, PutTap(s, s.db, s.settled + BatchIds(batch[..next]), t,
                                  tap.(phase := Acking(next), known := tap.known + BatchIds(batch[..next]))), t,
                        Times(AckHeld, |tap.held| - next),
                        PutTap(s, s.db, s.settled + BatchIds(batch), t, tap.(phase := Acking(|batch|), known := tap.known + BatchIds(batch))))
    decreases |tap.held| - next
  {
    hide TapPerforms, BatchIds, TerminalIds, ExpectedCount, Upsert;
    var batch := Deliveries(tap.held);
    var end := PutTap(s, s.db, s.settled + BatchIds(batch), t, tap.(phase := Acking(|batch|), known := tap.known + BatchIds(batch)));
    if next == |batch| {
      assert batch[..next] == batch;
      TapRests(c, end, t);
    } else {
      var ids, more := BatchIds(batch[..next]), BatchIds(batch[..next + 1]);
      BatchIdsGrow(batch, next);
      var s0 := PutTap(s, s.db, s.settled + ids, t, tap.(phase := Acking(next), known := tap.known + ids));
      var s1 := PutTap(s, s.db, s.settled + more, t, tap.(phase := Acking(next + 1), known := tap.known + more));
      var id := batch[next].job.jobId;
      assert (s.settled + ids) + {id} == s.settled + more && (tap.known + ids) + {id} == tap.known + more;
      assert TapDoes(c, s0, t, AckHeld) == s1;
      AcksAll(c, s, t, tap, next + 1);
      TapOnce(c, s0, t, AckHeld, s1, Times(AckHeld, |batch| - next - 1), end);
    }
  }

  /** One uninterrupted flush: its rows, its events and its acknowledgements, in this order. */
  function FlushActions(n: nat): seq<TapAction> {
    [BeginFlush] + (Times(WriteTerminalRow, n) + (Times(AppendTerminalEvent, n) + (Times(AckHeld, n) + ([EndFlush] + []))))
  }

  /** What `Flushed` says of the tap object is what the protocol's flush steps reach. */
  lemma FlushIsProtocolSteps(c: Config, s: World, t: nat)
    requires t < |s.taps| && s.taps[t].phase.Collecting? && s.taps[t].held != []
    ensures var tap := s.taps[t];
            var batch := Deliveries(tap.held);
            var known := tap.known + BatchIds(batch);
            TapPerforms(c, s, t, FlushActions(|batch|),
                        PutTap(s, RecordTerminalsIn(s.db, batch, TERMINAL_STAGE), s.settled + BatchIds(batch), t,
                               Tap(tap.partitions, Collecting, [], known, tap.done || |known| >= ExpectedCount(s.db.batches, c.Run()))))
  {
    hide TapPerforms, TerminalRows, ExpectedCount, BatchIds;
    var tap := s.taps[t];
    var batch := Deliveries(tap.held);
    var n := |batch|;
    var known := tap.known + BatchIds(batch);
    var rows := TerminalRows(s.db, batch, TERMINAL_STAGE);
    var all := RecordTerminalsIn(s.db, batch, TERMINAL_STAGE);
    RowsLeaveTheRest(s.db, batch, TERMINAL_STAGE);
    NoRows(s.db, batch);
    var s1 := PutTap(s, s.db, s.settled, t, tap.(phase := WritingRows(0)));
    var s2 := PutTap(s, rows, s.settled, t, tap.(phase := AppendingEvents(0)));
    var s3 := PutTap(s, all, s.settled, t, tap.(phase := Acking(0)));
    var s4 := PutTap(s, all, s.settled + BatchIds(batch), t, tap.(phase := Acking(n), known := known));
    var s5 := PutTap(s, all, s.settled + BatchIds(batch), t,
                     Tap(tap.partitions, Collecting, [], known, tap.done || |known| >= ExpectedCount(s.db.batches, c.Run())));
    assert TapDoes(c, s, t, BeginFlush) == s1;
    WritesRows(c, s, t, tap, 0);
    EventsFrom(c, s, s2, t, tap, rows);
    AcksFrom(c, s, s3, t, tap, all);
    assert TapDoes(c, s4, t, EndFlush) == s5;
    TapRests(c, s5, t);
    TapOnce(c, s4, t, EndFlush, s5, [], s5);
    TapConcat(c, s3, t, Times(AckHeld, n), s4, [EndFlush] + [], s5);
    TapConcat(c, s2, t, Times(AppendTerminalEvent, n), s3, Times(AckHeld, n) + ([EndFlush] + []), s5);
    TapConcat(c, s1, t, Times(WriteTerminalRow, n), s2, Times(AppendTerminalEvent, n) + (Times(AckHeld, n) + ([EndFlush] + [])), s5);
    TapOnce(c, s, t, BeginFlush, s1, FlushActions(n)[1..], s5);
    assert FlushActions(n) == [BeginFlush] + FlushActions(n)[1..];
  }

  lemma NoRows(db: Db, batch: seq<Delivery>)
    ensures TerminalRows(db, batch[..0], TERMINAL_STAGE) == db && BatchIds(batch[..0]) == {}
  {
  }

  lemma EventsFrom(c: Config, s: World, s2: World, t: nat, tap: Tap, rows: Db)
    requires t < |s.taps| && tap.held != [] && s2 == PutTap(s, rows, s.settled, t, tap.(phase := AppendingEvents(0)))
    ensures TapPerforms(c, s2, t, Times(AppendTerminalEvent, |tap.held|),
                        PutTap(s, rows.(events := rows.events + TerminalEvents(Deliveries(tap.held), TERMINAL_STAGE)), s.settled, t, tap.(phase := Acking(0))))
  {
    hide TapPerforms;
    AppendsEvents(c, s2, t, tap, 0);
    assert rows.events + TerminalEvents(Deliveries(tap.held), TERMINAL_STAGE)[..0] == rows.events;
    assert PutTap(s2, rows, s.settled, t, tap.(phase := AppendingEvents(0))) == s2;
    var all := rows.(events := rows.events + TerminalEvents(Deliveries(tap.held), TERMINAL_STAGE));
    assert PutTap(s2, all, s.settled, t, tap.(phase := Acking(0))) == PutTap(s, all, s.settled, t, tap.(phase := Acking(0)));
  }

  lemma AcksFrom(c: Config, s: World, s3: World, t: nat, tap: Tap, all: Db)
    requires t < |s.taps| && s3 == PutTap(s, all, s.settled, t, tap.(phase := Acking(0)))
    ensures var ids := BatchIds(Deliveries(tap.held));
            TapPerforms(c, s3, t, Times(AckHeld, |tap.held|),
                        PutTap(s, all, s.settled + ids, t, tap.(phase := Acking(|tap.held|), known := tap.known + ids)))
  {
    hide TapPerforms, BatchIds;
    var ids := BatchIds(Deliveries(tap.held));
    AcksAll(c, s3, t, tap, 0);
    NoRows(all, Deliveries(tap.held));
    assert s.settled + {} == s.settled && tap.known + {} == tap.known;
    assert PutTap(s3, all, s.settled, t, tap.(phase := Acking(0), known := tap.known)) == s3;
    assert PutTap(s3, all, s.settled + ids, t, tap.(phase := Acking(|tap.held|), known := tap.known + ids))
        == PutTap(s, all, s.settled + ids, t, tap.(phase := Acking(|tap.held|), known := tap.known + ids));
  }

  // ---------------------------------------------------------------- the other callbacks of a tap

  /** Opening a tap reads what the constructor reads: the ids of the log, then whether they reach the expected count. */
  lemma OpeningIsProtocolSteps(c: Config, s: World, t: nat, partitions: set<string>)
    requires t < |s.taps| && s.taps[t].phase.Off?
    ensures var known := TerminalIds(s.db.events, c.Run());
            TapPerforms(c, s, t, [StartTap(partitions)] + ([CheckStart] + []),
                        s.SetTap(t, Tap(partitions, Collecting, [], known, |known| >= ExpectedCount(s.db.batches, c.Run()))))
  {
    hide TapPerforms, TerminalIds, ExpectedCount;
    var known := TerminalIds(s.db.events, c.Run());
    var s1 := s.SetTap(t, Tap(partitions, Opening, [], known, false));
    var s2 := s.SetTap(t, Tap(partitions, Collecting, [], known, |known| >= ExpectedCount(s.db.batches, c.Run())));
    assert TapDoes(c, s, t, StartTap(partitions)) == s1;
    assert TapDoes(c, s1, t, CheckStart) == s2;
    TapRests(c, s2, t);
    TapOnce(c, s1, t, CheckStart, s2, [], s2);
    TapOnce(c, s, t, StartTap(partitions), s1, [CheckStart] + [], s2);
  }

  /** A collecting tap with room takes any message of its queues, and treats it as `OnMessage` does short of the flush. */
  lemma ReceiptIsProtocolStep(c: Config, s: World, t: nat, i: nat)
    requires t < |s.taps| && s.taps[t].phase.Collecting? && i < |s.ready| && Watched(c, s.taps[t], s.ready[i].queue)
    requires s.taps[t].held == [] || |s.taps[t].held| < c.batchSize
    ensures TapCan(c, s, t, TapReceives(i))
    ensures var s', m, tap := TapDoes(c, s, t, TapReceives(i)), s.ready[i], s.taps[t];
            && s'.ready == Without(s.ready, i) && s'.db == s.db
            && (m.job.runId == c.Run() && m.job.jobId !in tap.known ==> s'.taps[t] == tap.(held := tap.held + [m]) && s'.settled == s.settled)
            && (m.job.runId != c.Run() || m.job.jobId in tap.known ==> s'.taps[t] == tap)
            && (m.job.runId == c.Run() && m.job.jobId in tap.known ==> s'.settled == s.settled + {m.job.jobId})
  {
  }
}
