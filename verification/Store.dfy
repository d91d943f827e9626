/** The run store as a mutable object (MongoRunStore in runtime/store.py), each method against the document functions. */
module Store {
  import opened Common
  import opened Targeting
  import opened Jobs
  import opened Documents
  import opened Counting
  import opened Selectors

  datatype SeedError = DuplicateIds(ids: set<string>) | AlreadySeeded(ids: set<string>)

  /** The ids `_duplicate_values` reports: those that occur twice. */
  function Repeated(ids: seq<string>): set<string> {
    set i, j | 0 <= i < j < |ids| && ids[i] == ids[j] :: ids[i]
  }

  /** What replay selects among the rows of a run. */
  datatype ReplayFilter = ReplayFilter(
    runId: string,
    jobId: Option<string>,
    status: Option<Status>,
    included: seq<Selector>,
    excluded: seq<Selector>,
    force: bool)

  predicate StatusReplays(filter: ReplayFilter, status: Status) {
    if filter.status.Some? then status == filter.status.value
    else status in {RetryWaiting, Held, Failed, DeadLettered}
  }

  predicate IsDue(time: Option<int>, now: int) {
    time.None? || time.value <= now
  }

  predicate Replayable(filter: ReplayFilter, now: int, key: RowKey, row: Row) {
    && key.runId == filter.runId
    && StatusReplays(filter, row.status)
    && (filter.jobId.Some? ==> key.jobId == filter.jobId.value)
    && TargetMatches(row.targetTags, filter.included, filter.excluded)
    && (filter.force || row.status != RetryWaiting || IsDue(row.notBefore, now))
  }

  /** A hold of the run, not cleared, without an end or with one still to come, all of whose pairs are among the tags. */
  predicate StopsTags(hold: Hold, runId: string, tags: Tags, now: int) {
    && hold.runId == runId && !hold.cleared && (hold.blockedUntil.Some? ==> now < hold.blockedUntil.value)
    && Pairs(hold.selectors) <= tags.Items
  }

  lemma BlockingMeans(hold: Hold, runId: string, tags: Tags, now: int)
    ensures Blocks(hold, runId, tags, now) <==> StopsTags(hold, runId, tags, now)
  {
    MatchingIsInclusion(tags, hold.selectors, []);
  }

  lemma ReplayableMeans(filter: ReplayFilter, now: int, rows: Rows)
    ensures forall key :: key in rows ==>
              (Replayable(filter, now, key, rows[key])
               <==> key.runId == filter.runId
                    && (if filter.status.Some? then rows[key].status == filter.status.value
                        else rows[key].status !in {Pending, Running, Completed, Terminal})
                    && (filter.jobId.Some? ==> key.jobId == filter.jobId.value)
                    && Pairs(filter.included) <= rows[key].targetTags.Items && Pairs(filter.excluded) !! rows[key].targetTags.Items
                    && (rows[key].status == RetryWaiting && !filter.force ==> rows[key].notBefore.None? || rows[key].notBefore.value <= now))
  {
    hide TargetMatches, Pairs;
    forall key | key in rows ensures TargetMatches(rows[key].targetTags, filter.included, filter.excluded)
      <==> Pairs(filter.included) <= rows[key].targetTags.Items && Pairs(filter.excluded) !! rows[key].targetTags.Items
    {
      MatchingIsInclusion(rows[key].targetTags, filter.included, filter.excluded);
    }
  }

  /** The filter of a replay without options. */
  function DefaultReplay(runId: string, force: bool): ReplayFilter {
    ReplayFilter(runId, None, None, [], [], force)
  }

  /** A default replay selects what is not under way and not finished, a retry only when it is due or forced. */
  lemma DefaultReplaySelects(runId: string, force: bool, now: int, key: RowKey, row: Row)
    ensures Replayable(DefaultReplay(runId, force), now, key, row)
            <==> && key.runId == runId && row.status !in {Pending, Running, Completed, Terminal}
                 && (row.status == RetryWaiting ==> force || row.notBefore.None? || row.notBefore.value <= now)
  {
    ReplayableMeans(DefaultReplay(runId, force), now, map[key := row]);
  }

  /** Naming a job narrows a replay to that job's rows, and changes nothing else. */
  lemma NamedJobNarrows(filter: ReplayFilter, jobId: string, now: int, key: RowKey, row: Row)
    requires filter.jobId.None?
    ensures Replayable(filter.(jobId := Some(jobId)), now, key, row) <==> Replayable(filter, now, key, row) && key.jobId == jobId
  {
  }

  lemma {:induction false} LedgerCounted(attempts: seq<Attempt>, key: RowKey)
    ensures LedgerSize(attempts, key) == |set i | 0 <= i < |attempts| && attempts[i].key == key|
  {
    if attempts != [] {
      LedgerCounted(attempts[..|attempts| - 1], key);
      LastEntryCounts(attempts[..|attempts| - 1], attempts[|attempts| - 1], key);
      assert attempts == attempts[..|attempts| - 1] + [attempts[|attempts| - 1]];
    }
  }

  lemma LastEntryCounts(rest: seq<Attempt>, last: Attempt, key: RowKey)
    ensures var all := rest + [last];
            |set i | 0 <= i < |all| && all[i].key == key|
            == |set i | 0 <= i < |rest| && rest[i].key == key| + if last.key == key then 1 else 0
  {
    var all := rest + [last];
    var mine := set i | 0 <= i < |all| && all[i].key == key;
    var before := set i | 0 <= i < |rest| && rest[i].key == key;
    assert mine == if last.key == key then before + {|rest|} else before;
  }

  lemma {:induction false} SameHoldsBy(holds: seq<Hold>, runId: string, selectors: seq<Selector>)
    ensures SameHoldCount(holds, runId, selectors) == |set i | 0 <= i < |holds| && SameHold(holds[i], runId, selectors)|
  {
    hide SameHold;
    if holds != [] {
      var n, rest := |holds| - 1, holds[..|holds| - 1];
      SameHoldsBy(rest, runId, selectors);
      var before := set i | 0 <= i < n && SameHold(rest[i], runId, selectors);
      assert (set i | 0 <= i < |holds| && SameHold(holds[i], runId, selectors))
          == before + if SameHold(holds[n], runId, selectors) then {n} else {};
    }
  }

  lemma SameHoldsCounted(holds: seq<Hold>, runId: string, selectors: seq<Selector>)
    ensures SameHoldCount(holds, runId, selectors)
            == |set i | 0 <= i < |holds| && holds[i].runId == runId && holds[i].selectors == selectors && !holds[i].cleared|
  {
    hide SameHoldCount;
    SameHoldsBy(holds, runId, selectors);
    assert (set i | 0 <= i < |holds| && SameHold(holds[i], runId, selectors))
        == (set i | 0 <= i < |holds| && holds[i].runId == runId && holds[i].selectors == selectors && !holds[i].cleared);
  }

  // ---------------------------------------------------------------- composite writes

  /** `record_job_failure` when nothing interferes between its count, its insert and its upsert. */
  function RecordFailureIn(db: Db, job: Job, stage: string, queue: string, detail: string, maxAttempts: int, retryAt: int): Db {
    var number := LedgerSize(db.attempts, KeyOf(job, stage)) + 1;
    WriteFailure(InsertAttempt(db, job, stage, number, maxAttempts, detail),
                 job, stage, queue, number, ActionFor(number, maxAttempts), detail, retryAt)
  }

  datatype Delivery = Delivery(job: Job, queue: string)

  /** The ordered bulk write of a terminal batch. */
  function TerminalRows(db: Db, batch: seq<Delivery>, stage: string): Db {
    if batch == [] then db
    else
      var last := batch[|batch| - 1];
      MarkTerminal(TerminalRows(db, batch[..|batch| - 1], stage), last.job, stage, last.queue)
  }

  function TerminalEvents(batch: seq<Delivery>, stage: string): seq<Event> {
    seq(|batch|, i requires 0 <= i < |batch| => TerminalOf(batch[i].job, stage))
  }

  function RecordTerminalsIn(db: Db, batch: seq<Delivery>, stage: string): Db {
    var rows := TerminalRows(db, batch, stage);
    rows.(events := rows.events + TerminalEvents(batch, stage))
  }

  /** The optional part of `$set`. */
  function SetFields(row: Row, extra: Extra): Row {
    row.(attemptCount := if extra.attemptCount.Some? then extra.attemptCount.value else row.attemptCount,
         notBefore := if extra.notBefore.Some? then extra.notBefore.value else row.notBefore,
         heldUntil := if extra.heldUntil.Some? then extra.heldUntil.value else row.heldUntil,
         holdId := if extra.holdId.Some? then extra.holdId.value else row.holdId,
         failureDetail := if extra.failureDetail.Some? then extra.failureDetail.value else row.failureDetail)
  }

  /** `$unset`. */
  function UnsetFields(row: Row, clear: set<Field>): Row {
    row.(notBefore := if NotBefore in clear then None else row.notBefore,
         heldUntil := if HeldUntil in clear then None else row.heldUntil,
         holdId := if HoldId in clear then None else row.holdId,
         failureDetail := if FailureDetail in clear then None else row.failureDetail)
  }

  class RunStore {
    var jobStates: Rows
    var jobAttempts: seq<Attempt>
    var events: seq<Event>
    var seedBatches: seq<SeedBatch>
    var targetHolds: seq<Hold>
    var clock: int

    ghost function Contents(): Db
      reads this
    {
      Db(jobStates, jobAttempts, events, seedBatches, targetHolds)
    }

    constructor (now: int)
      ensures Contents() == EMPTY_DB && clock == now
    {
      jobStates, jobAttempts, events, seedBatches, targetHolds, clock := map[], [], [], [], [], now;
    }

    method Append(event: Event)
      modifies this`events
      ensures Contents() == Documents.Append(old(Contents()), event) && events == old(events) + [event]
    {
      events := events + [event];
    }

    /** `_upsert_job_state`: set the fixed fields, then the extra ones, then unset the cleared ones, in one update. */
    method UpsertJobState(job: Job, stage: string, status: Status, queue: string, extra: Extra, clear: set<Field>) returns (state: Row)
      requires !Conflicts(extra, clear)
      modifies this`jobStates
      ensures jobStates == Upsert(old(jobStates), job, stage, status, queue, extra, clear)
      ensures jobStates == old(jobStates)[RowKey(job.runId, job.jobId, stage) := state]
      ensures state.status == status && state.partitionKey == job.partitionKey && state.targetTags == job.targetTags
              && state.queueName == queue && state.job == job
      ensures var before, key := old(jobStates), RowKey(job.runId, job.jobId, stage);
              && state.attemptCount == (if extra.attemptCount.Some? then extra.attemptCount.value
                                        else if key in before then before[key].attemptCount else 0)
              && state.notBefore == (if extra.notBefore.Some? then extra.notBefore.value
                                     else if NotBefore !in clear && key in before then before[key].notBefore else None)
              && state.heldUntil == (if extra.heldUntil.Some? then extra.heldUntil.value
                                     else if HeldUntil !in clear && key in before then before[key].heldUntil else None)
              && state.holdId == (if extra.holdId.Some? then extra.holdId.value
                                  else if HoldId !in clear && key in before then before[key].holdId else None)
              && state.failureDetail == (if extra.failureDetail.Some? then extra.failureDetail.value
                                         else if FailureDetail !in clear && key in before then before[key].failureDetail else None)
    {
      var key := KeyOf(job, stage);
      var before := if key in jobStates then jobStates[key] else Row(status, "", map[], "", job, 0, None, None, None, None);
      state := before.(status := status, partitionKey := job.partitionKey, targetTags := job.targetTags, queueName := queue, job := job);
      state := SetFields(state, extra);
      state := UnsetFields(state, clear);
      jobStates := jobStates[key := state];
    }

    method MarkJobPending(job: Job, stage: string, queue: string) returns (state: Row)
      modifies this`jobStates
      ensures Contents() == MarkPending(old(Contents()), job, stage, queue)
      ensures var before, key := old(jobStates), RowKey(job.runId, job.jobId, stage);
              && jobStates == before[key := state]
              && state == Row(Pending, job.partitionKey, job.targetTags, queue, job,
                              if key in before then before[key].attemptCount else 0, None, None, None, None)
    {
      state := UpsertJobState(job, stage, Pending, queue, NO_EXTRA, {NotBefore, HeldUntil, HoldId, FailureDetail});
    }

    method MarkJobRunning(job: Job, stage: string, queue: string) returns (state: Row)
      modifies this`jobStates
      ensures Contents() == MarkRunning(old(Contents()), job, stage, queue)
      ensures var before, key := old(jobStates), RowKey(job.runId, job.jobId, stage);
              && jobStates == before[key := state]
              && state == Row(Running, job.partitionKey, job.targetTags, queue, job,
                              if key in before then before[key].attemptCount else 0, None, None, None, None)
    {
      state := UpsertJobState(job, stage, Running, queue, NO_EXTRA, {NotBefore, HeldUntil, HoldId, FailureDetail});
    }

    /** Completion keeps the detail and count of an earlier failure. */
    method MarkJobCompleted(job: Job, stage: string, queue: string) returns (state: Row)
      modifies this`jobStates
      ensures Contents() == MarkCompleted(old(Contents()), job, stage, queue)
      ensures var before, key := old(jobStates), RowKey(job.runId, job.jobId, stage);
              && jobStates == before[key := state]
              && state == Row(Completed, job.partitionKey, job.targetTags, queue, job,
                              if key in before then before[key].attemptCount else 0, None, None, None, if key in before then before[key].failureDetail else None)
    {
      state := UpsertJobState(job, stage, Completed, queue, NO_EXTRA, {NotBefore, HeldUntil, HoldId});
    }

    method MarkJobTerminal(job: Job, stage: string, queue: string) returns (state: Row)
      modifies this`jobStates
      ensures Contents() == MarkTerminal(old(Contents()), job, stage, queue)
      ensures var before, key := old(jobStates), RowKey(job.runId, job.jobId, stage);
              && jobStates == before[key := state]
              && state == Row(Terminal, job.partitionKey, job.targetTags, queue, job,
                              if key in before then before[key].attemptCount else 0, None, None, None, if key in before then before[key].failureDetail else None)
    {
      state := UpsertJobState(job, stage, Terminal, queue, NO_EXTRA, {NotBefore, HeldUntil, HoldId});
    }

    method HoldJob(job: Job, stage: string, queue: string, hold: Hold) returns (state: Row)
      modifies this`jobStates
      ensures Contents() == Documents.HoldJob(old(Contents()), job, stage, queue, hold)
      ensures var before, key := old(jobStates), RowKey(job.runId, job.jobId, stage);
              && jobStates == before[key := state]
              && state == Row(Held, job.partitionKey, job.targetTags, queue, job,
                              if key in before then before[key].attemptCount else 0, None, hold.blockedUntil, Some(hold.holdId), None)
    {
      state := UpsertJobState(job, stage, Held, queue,
                              NO_EXTRA.(heldUntil := Some(hold.blockedUntil), holdId := Some(Some(hold.holdId))),
                              {NotBefore, FailureDetail});
    }

    /** `count_documents` on the ledger. */
    method CountAttempts(key: RowKey) returns (count: nat)
      ensures count == LedgerSize(jobAttempts, key)
      ensures count == |set i | 0 <= i < |jobAttempts| && jobAttempts[i].key == key|
    {
      count := 0;
      for i := 0 to |jobAttempts|
        invariant count == LedgerSize(jobAttempts[..i], key)
      {
        assert jobAttempts[..i + 1][..i] == jobAttempts[..i];
        if jobAttempts[i].key == key {
          count := count + 1;
        }
      }
      assert jobAttempts[..|jobAttempts|] == jobAttempts;
      LedgerCounted(jobAttempts, key);
    }

    method RecordJobFailure(job: Job, stage: string, queue: string, detail: string, maxAttempts: int, retryDelay: int)
      returns (attempt: Attempt)
      modifies this`jobStates, this`jobAttempts
      ensures Contents() == RecordFailureIn(old(Contents()), job, stage, queue, detail, maxAttempts, clock + retryDelay)
      ensures var key, ledger := RowKey(job.runId, job.jobId, stage), old(jobAttempts);
              var number := |set i | 0 <= i < |ledger| && ledger[i].key == key| + 1;
              && attempt == Attempt(key, job.partitionKey, job.targetTags, number, if number >= maxAttempts then DeadLetter else Retry, detail)
              && jobAttempts == ledger + [attempt]
              && jobStates == old(jobStates)[key :=
                   Row(if number >= maxAttempts then DeadLettered else RetryWaiting, job.partitionKey, job.targetTags, queue, job, number,
                       if number >= maxAttempts then None else Some(clock + retryDelay), None, None, Some(detail))]
    {
      var count := CountAttempts(KeyOf(job, stage));
      var number := count + 1;
      var action := if number >= maxAttempts then DeadLetter else Retry;
      attempt := Attempt(KeyOf(job, stage), job.partitionKey, job.targetTags, number, action, detail);
      jobAttempts := jobAttempts + [attempt];
      var status := if action == DeadLetter then DeadLettered else RetryWaiting;
      var notBefore := None;
      if status == RetryWaiting {
        notBefore := Some(clock + retryDelay);
      }
      var _ := UpsertJobState(job, stage, status, queue,
                              NO_EXTRA.(attemptCount := Some(number), notBefore := Some(notBefore), failureDetail := Some(Some(detail))),
                              {HeldUntil, HoldId});
    }

    /** Rows first, in order, then events, in order. */
    method RecordTerminalBatch(batch: seq<Delivery>, stage: string)
      modifies this`jobStates, this`events
      ensures Contents() == RecordTerminalsIn(old(Contents()), batch, stage)
      ensures |events| == |old(events)| + |batch| && events[..|old(events)|] == old(events)
      ensures forall i :: 0 <= i < |batch| ==>
                events[|old(events)| + i]
                == Event(batch[i].job.runId, batch[i].job.jobId, batch[i].job.lane, stage, TerminalEvent, Whole(batch[i].job))
    {
      if batch == [] {
        assert events + TerminalEvents(batch, stage) == events;
        return;
      }
      for i := 0 to |batch|
        invariant Contents() == TerminalRows(old(Contents()), batch[..i], stage) && events == old(events)
      {
        assert batch[..i + 1][..i] == batch[..i];
        var _ := MarkJobTerminal(batch[i].job, stage, batch[i].queue);
      }
      assert batch[..|batch|] == batch;
      var inserted: seq<Event> := [];
      for i := 0 to |batch|
        invariant inserted == TerminalEvents(batch, stage)[..i]
      {
        inserted := inserted + [TerminalOf(batch[i].job, stage)];
      }
      events := events + inserted;
    }

    // -------------------------------------------------------------- seed batches

    /** `_duplicate_values`. */
    method DuplicateValues(values: seq<string>) returns (duplicates: set<string>)
      ensures duplicates == Repeated(values)
      ensures forall v :: v in duplicates <==> exists i, j :: 0 <= i < j < |values| && values[i] == values[j] == v
    {
      var seen: set<string> := {};
      duplicates := {};
      for i := 0 to |values|
        invariant seen == IdSet(values[..i])
        invariant duplicates == Repeated(values[..i])
      {
        RepeatedGrows(values, i);
        if values[i] in seen {
          duplicates := duplicates + {values[i]};
        }
        seen := seen + {values[i]};
      }
      assert values[..|values|] == values;
    }

    /** `_active_seed_job_ids`. */
    method ActiveSeedJobIds(runId: string) returns (ids: set<string>)
      ensures ids == ActiveIds(seedBatches, runId)
      ensures forall id :: id in ids <==>
                exists b :: 0 <= b < |seedBatches| && seedBatches[b].runId == runId && seedBatches[b].status in {Created, Published}
                            && id in seedBatches[b].jobIds
    {
      ids := {};
      for i := 0 to |seedBatches|
        invariant ids == ActiveIds(seedBatches[..i], runId)
      {
        ActiveIdsSplit(seedBatches[..i + 1], runId);
        assert seedBatches[..i + 1][..i] == seedBatches[..i];
        if Active(seedBatches[i], runId) {
          ids := ids + IdSet(seedBatches[i].jobIds);
        }
      }
      assert seedBatches[..|seedBatches|] == seedBatches;
    }

    /** Refuses repeated ids and ids of active batches; otherwise adds one created batch. Distinctness is kept. */
    method CreateSeedBatch(runId: string, jobIds: seq<string>) returns (result: Result<nat, SeedError>)
      modifies this`seedBatches
      ensures result.Ok? <==> NoDuplicates(jobIds) && IdSet(jobIds) !! ActiveIds(old(seedBatches), runId)
      ensures result.Ok? ==> result.value == |old(seedBatches)| && Contents() == AddBatch(old(Contents()), runId, jobIds)
      ensures result.Ok? ==> seedBatches == old(seedBatches) + [SeedBatch(runId, jobIds, |jobIds|, Created)]
      ensures result.Err? ==> Contents() == old(Contents())
      ensures result.Err? && !NoDuplicates(jobIds) ==> result.error == DuplicateIds(Repeated(jobIds))
      ensures result.Err? && NoDuplicates(jobIds) ==> result.error == AlreadySeeded(IdSet(jobIds) * ActiveIds(old(seedBatches), runId))
      ensures BatchesOk(old(seedBatches), runId) ==> BatchesOk(seedBatches, runId)
    {
      var duplicates := DuplicateValues(jobIds);
      RepeatedIsDuplicate(jobIds);
      if duplicates != {} {
        return Err(DuplicateIds(duplicates));
      }
      var existing := ActiveSeedJobIds(runId);
      var conflicting := existing * IdSet(jobIds);
      if conflicting != {} {
        return Err(AlreadySeeded(conflicting));
      }
      assert forall id :: id in IdSet(jobIds) && id in existing ==> id in conflicting;
      NewBatchIsOk(seedBatches, runId, jobIds);
      result := Ok(|seedBatches|);
      seedBatches := seedBatches + [SeedBatch(runId, jobIds, |jobIds|, Created)];
    }

    method ExpectedJobCount(runId: string) returns (total: nat)
      ensures total == ExpectedCount(seedBatches, runId)
      ensures BatchesOk(seedBatches, runId) ==> total == |ActiveIds(seedBatches, runId)|
    {
      total := 0;
      for i := 0 to |seedBatches|
        invariant total == ExpectedCount(seedBatches[..i], runId)
      {
        assert seedBatches[..i + 1][..i] == seedBatches[..i];
        if Active(seedBatches[i], runId) {
          total := total + seedBatches[i].count;
        }
      }
      assert seedBatches[..|seedBatches|] == seedBatches;
      if BatchesOk(seedBatches, runId) {
        ExpectedIsExact(seedBatches, runId);
      }
    }

    /** An update of one batch; an unknown batch is left out silently. */
    method MarkSeedBatch(b: nat, status: BatchStatus)
      modifies this`seedBatches
      ensures b < |old(seedBatches)| ==> Contents() == SetBatchStatus(old(Contents()), b, status)
      ensures b < |old(seedBatches)| ==> seedBatches == old(seedBatches)[b := old(seedBatches)[b].(status := status)]
      ensures b >= |old(seedBatches)| ==> Contents() == old(Contents())
    {
      if b < |seedBatches| {
        seedBatches := seedBatches[b := seedBatches[b].(status := status)];
      }
    }

    // -------------------------------------------------------------- holds

    method SetTargetHold(runId: string, selectors: seq<Selector>, blockedUntil: Option<int>) returns (hold: Hold)
      modifies this`targetHolds
      ensures Contents() == SetHold(old(Contents()), runId, selectors, blockedUntil)
      ensures targetHolds == old(targetHolds) + [hold] && hold == Hold(|old(targetHolds)|, runId, selectors, blockedUntil, false)
    {
      hold := Hold(|targetHolds|, runId, selectors, blockedUntil, false);
      targetHolds := targetHolds + [hold];
    }

    method ClearTargetHolds(runId: string, selectors: seq<Selector>) returns (modified: nat)
      modifies this`targetHolds
      ensures Contents() == ClearHolds(old(Contents()), runId, selectors)
      ensures modified == SameHoldCount(old(targetHolds), runId, selectors)
      ensures |targetHolds| == |old(targetHolds)|
      ensures forall i :: 0 <= i < |targetHolds| ==>
                var hold := old(targetHolds)[i];
                targetHolds[i] == if hold.runId == runId && hold.selectors == selectors then hold.(cleared := true) else hold
      ensures var holds := old(targetHolds);
              modified == |set i | 0 <= i < |holds| && holds[i].runId == runId && holds[i].selectors == selectors && !holds[i].cleared|
    {
      modified := 0;
      var before := targetHolds;
      var updated: seq<Hold> := [];
      for i := 0 to |before|
        invariant |updated| == i
        invariant forall j :: 0 <= j < i ==>
                    updated[j] == if SameHold(before[j], runId, selectors) then before[j].(cleared := true) else before[j]
        invariant modified == SameHoldCount(before[..i], runId, selectors)
      {
        assert before[..i + 1][..i] == before[..i];
        if SameHold(before[i], runId, selectors) {
          updated := updated + [before[i].(cleared := true)];
          modified := modified + 1;
        } else {
          updated := updated + [before[i]];
        }
      }
      assert before[..|before|] == before;
      SameHoldsCounted(before, runId, selectors);
      targetHolds := updated;
    }

    /** The first uncleared, unexpired hold whose selectors all match. */
    method ActiveHoldForTags(runId: string, tags: Tags) returns (found: Option<Hold>)
      ensures found == ActiveHold(targetHolds, runId, tags, clock)
      ensures found.Some? ==>
                exists i :: 0 <= i < |targetHolds| && found.value == targetHolds[i] && StopsTags(targetHolds[i], runId, tags, clock)
                  && forall j :: 0 <= j < i ==> !StopsTags(targetHolds[j], runId, tags, clock)
      ensures found.None? <==> forall i :: 0 <= i < |targetHolds| ==> !StopsTags(targetHolds[i], runId, tags, clock)
    {
      ActiveHoldIsFirst(targetHolds, runId, tags, clock);
      forall hold ensures StopsTags(hold, runId, tags, clock) <==> Blocks(hold, runId, tags, clock) {
        BlockingMeans(hold, runId, tags, clock);
      }
      for i := 0 to |targetHolds|
        invariant ActiveHold(targetHolds, runId, tags, clock) == ActiveHold(targetHolds[i..], runId, tags, clock)
      {
        assert targetHolds[i..][1..] == targetHolds[i + 1..];
        var hold := targetHolds[i];
        if hold.runId != runId || hold.cleared {
          continue;
        }
        if hold.blockedUntil.Some? && IsDue(hold.blockedUntil, clock) {
          continue;
        }
        if TargetMatches(tags, hold.selectors, []) {
          return Some(hold);
        }
      }
      return None;
    }

    // -------------------------------------------------------------- replay

    /** The keys of one run's rows in one status; the order the database returns them in is left open. */
    method ListJobStates(runId: string, status: Status) returns (keys: seq<RowKey>)
      ensures NoRepeats(keys)
      ensures forall key :: key in keys <==> key in jobStates && key.runId == runId && jobStates[key].status == status
    {
      keys := [];
      var rest := jobStates.Keys;
      while rest != {}
        invariant rest <= jobStates.Keys
        invariant NoRepeats(keys) && forall key :: key in keys ==> key !in rest
        invariant forall key :: key in keys <==>
                    key in jobStates && key !in rest && key.runId == runId && jobStates[key].status == status
        decreases rest
      {
        var key :| key in rest;
        rest := rest - {key};
        if key.runId == runId && jobStates[key].status == status {
          keys := keys + [key];
        }
      }
    }

    method CandidateStates(filter: ReplayFilter) returns (keys: seq<RowKey>)
      ensures NoRepeats(keys)
      ensures forall key :: key in keys <==> key in jobStates && key.runId == filter.runId && StatusReplays(filter, jobStates[key].status)
      ensures forall key :: key in keys <==>
                && key in jobStates && key.runId == filter.runId
                && (if filter.status.Some? then jobStates[key].status == filter.status.value
                    else jobStates[key].status !in {Pending, Running, Completed, Terminal})
    {
      if filter.status.Some? {
        keys := ListJobStates(filter.runId, filter.status.value);
        return;
      }
      var retrying := ListJobStates(filter.runId, RetryWaiting);
      var held := ListJobStates(filter.runId, Held);
      var failed := ListJobStates(filter.runId, Failed);
      var dead := ListJobStates(filter.runId, DeadLettered);
      JoinKeys(retrying, held);
      JoinKeys(retrying + held, failed);
      JoinKeys(retrying + held + failed, dead);
      keys := retrying + held + failed + dead;
    }

    /** Each selected row once, and exactly the rows the filter admits: never a retry before its time unless forced. */
    method ReplayableJobStates(filter: ReplayFilter) returns (keys: seq<RowKey>)
      ensures NoRepeats(keys)
      ensures forall key :: key in keys <==> key in jobStates && Replayable(filter, clock, key, jobStates[key])
      ensures forall key :: key in keys <==>
                && key in jobStates && key.runId == filter.runId
                && var row := jobStates[key];
                   && (if filter.status.Some? then row.status == filter.status.value
                       else row.status !in {Pending, Running, Completed, Terminal})
                   && (filter.jobId.Some? ==> key.jobId == filter.jobId.value)
                   && Pairs(filter.included) <= row.targetTags.Items && Pairs(filter.excluded) !! row.targetTags.Items
                   && (row.status == RetryWaiting && !filter.force ==> row.notBefore.None? || row.notBefore.value <= clock)
    {
      var states := CandidateStates(filter);
      keys := [];
      for i := 0 to |states|
        invariant NoRepeats(keys)
        invariant forall key :: key in keys <==> key in states[..i] && Replayable(filter, clock, key, jobStates[key])
      {
        var row := jobStates[states[i]];
        assert states[i] !in states[..i];
        if filter.jobId.Some? && states[i].jobId != filter.jobId.value {
          continue;
        }
        if !TargetMatches(row.targetTags, filter.included, filter.excluded) {
          continue;
        }
        if !filter.force && row.status == RetryWaiting && !IsDue(row.notBefore, clock) {
          continue;
        }
        keys := keys + [states[i]];
      }
      assert states[..|states|] == states;
      ReplayableMeans(filter, clock, jobStates);
    }
  }

  ghost predicate NoRepeats(keys: seq<RowKey>) {
    forall i, j :: 0 <= i < j < |keys| ==> keys[i] != keys[j]
  }

  lemma JoinKeys(a: seq<RowKey>, b: seq<RowKey>)
    requires NoRepeats(a) && NoRepeats(b) && forall key :: key in a ==> key !in b
    ensures NoRepeats(a + b)
  {
    var all := a + b;
    forall i, j | 0 <= i < j < |all| ensures all[i] != all[j] {
      if i < |a| <= j {
        assert all[i] in a && all[j] in b;
      }
    }
  }

  lemma RepeatedGrows(values: seq<string>, i: nat)
    requires i < |values|
    ensures Repeated(values[..i + 1]) == Repeated(values[..i]) + if values[i] in IdSet(values[..i]) then {values[i]} else {}
    ensures IdSet(values[..i + 1]) == IdSet(values[..i]) + {values[i]}
  {
    var before, after := values[..i], values[..i + 1];
    forall v | v in Repeated(after) ensures v in Repeated(before) || (v == values[i] && v in IdSet(before)) {
      var x, y :| 0 <= x < y < |after| && after[x] == after[y] && after[x] == v;
      if y < i {
        assert before[x] == before[y] == v;
      } else {
        assert before[x] == v;
      }
    }
    forall v | v in Repeated(before) ensures v in Repeated(after) {
      var x, y :| 0 <= x < y < |before| && before[x] == before[y] && before[x] == v;
      assert after[x] == after[y] == v;
    }
    if values[i] in IdSet(before) {
      var x :| 0 <= x < |before| && before[x] == values[i];
      assert after[x] == after[i];
    }
    forall v | v in IdSet(after) ensures v in IdSet(before) + {values[i]} {
      var x :| 0 <= x < |after| && after[x] == v;
      assert x < i ==> before[x] == v;
    }
    forall v | v in IdSet(before) ensures v in IdSet(after) {
      var x :| 0 <= x < |before| && before[x] == v;
      assert after[x] == v;
    }
    assert after[i] == values[i];
  }

  lemma RepeatedIsDuplicate(ids: seq<string>)
    ensures Repeated(ids) == {} <==> NoDuplicates(ids)
  {
    if !NoDuplicates(ids) {
      var i, j :| 0 <= i < j < |ids| && ids[i] == ids[j];
      assert ids[i] in Repeated(ids);
    }
    if Repeated(ids) != {} {
      var v :| v in Repeated(ids);
    }
  }

  lemma NewBatchIsOk(batches: seq<SeedBatch>, runId: string, ids: seq<string>)
    requires NoDuplicates(ids) && IdSet(ids) !! ActiveIds(batches, runId)
    ensures BatchesOk(batches, runId) ==> BatchesOk(batches + [SeedBatch(runId, ids, |ids|, Created)], runId)
  {
    var after := batches + [SeedBatch(runId, ids, |ids|, Created)];
    if BatchesOk(batches, runId) {
      forall a, b | 0 <= a < b < |after| && Active(after[a], runId) && Active(after[b], runId)
        ensures DisjointIds(after[a].jobIds, after[b].jobIds)
      {
        if b == |batches| {
          forall i, j | 0 <= i < |after[a].jobIds| && 0 <= j < |ids| ensures after[a].jobIds[i] != ids[j] {
            ActiveIdIsCounted(batches, runId, a, batches[a].jobIds[i]);
            assert ids[j] in IdSet(ids);
          }
        }
      }
    }
  }
}
