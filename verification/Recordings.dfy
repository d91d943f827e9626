/** How the attempts of one row are numbered and retried, when recordings overlap and when they do not. */
module Recordings {
  import opened Common
  import opened Manifest
  import opened Jobs
  import opened Documents
  import opened Protocol
  import opened Ledger

  /** The numbers recorded for one row, in ledger order. */
  function Numbers(attempts: seq<Attempt>, key: RowKey): seq<nat> {
    if attempts == [] then []
    else
      var last := attempts[|attempts| - 1];
      Numbers(attempts[..|attempts| - 1], key) + if last.key == key then [last.number] else []
  }

  function RetryEntries(attempts: seq<Attempt>, key: RowKey): nat {
    if attempts == [] then 0
    else
      var last := attempts[|attempts| - 1];
      RetryEntries(attempts[..|attempts| - 1], key) + if last.key == key && last.action == Retry then 1 else 0
  }

  ghost predicate Upto(numbers: seq<nat>) {
    forall i :: 0 <= i < |numbers| ==> numbers[i] == i + 1
  }

  /** How many retries the attempt limit allows. */
  function RetryLimit(c: Config): nat {
    if c.maxAttempts < 1 then 0 else c.maxAttempts - 1
  }

  lemma {:induction false} NumbersCount(attempts: seq<Attempt>, key: RowKey)
    ensures |Numbers(attempts, key)| == LedgerSize(attempts, key)
  {
    if attempts != [] {
      NumbersCount(attempts[..|attempts| - 1], key);
    }
  }

  lemma EntryCounts(attempts: seq<Attempt>, e: Attempt, key: RowKey)
    ensures LedgerSize(attempts + [e], key) == LedgerSize(attempts, key) + if e.key == key then 1 else 0
    ensures Numbers(attempts + [e], key) == Numbers(attempts, key) + if e.key == key then [e.number] else []
    ensures RetryEntries(attempts + [e], key) == RetryEntries(attempts, key) + if e.key == key && e.action == Retry then 1 else 0
  {
    assert (attempts + [e])[..|attempts|] == attempts;
  }

  /** In a ledger numbered in order, exactly the attempts below the limit are retried. */
  lemma {:induction false} RetriesAreBounded(c: Config, attempts: seq<Attempt>, key: RowKey)
    requires EntriesOk(c, attempts) && Upto(Numbers(attempts, key))
    ensures RetryEntries(attempts, key) == if LedgerSize(attempts, key) < RetryLimit(c) then LedgerSize(attempts, key) else RetryLimit(c)
  {
    if attempts != [] {
      var rest := attempts[..|attempts| - 1];
      var last := attempts[|attempts| - 1];
      NumbersCount(attempts, key);
      NumbersCount(rest, key);
      assert Upto(Numbers(rest, key)) by {
        forall i | 0 <= i < |Numbers(rest, key)| ensures Numbers(rest, key)[i] == i + 1 {
          assert Numbers(attempts, key)[i] == Numbers(rest, key)[i];
        }
      }
      RetriesAreBounded(c, rest, key);
      if last.key == key {
        assert Numbers(attempts, key)[|Numbers(rest, key)|] == last.number;
      }
    }
  }

  // ---------------------------------------------------------------- one step

  /** The row a worker is recording a failure of. */
  function RowOf(c: Config, s: World, w: nat): Option<RowKey>
    requires w < |s.workers| && w < |c.slots|
  {
    var phase := s.workers[w].phase;
    if phase.HandlerRaised? || phase.Counted? then Some(KeyOf(phase.job, c.Name(c.slots[w].stage))) else None
  }

  /** The number under which a step inserts an attempt of this row, if it does. */
  function NumberInserted(c: Config, s: World, step: Step, key: RowKey): Option<nat> {
    if Enabled(c, s, step) && step.AtWorker? && step.work.AddAttempt? && RowOf(c, s, step.w) == Some(key)
    then Some(s.workers[step.w].phase.count + 1) else None
  }

  /** An attempt of this row is inserted while the count it was numbered from still stands. */
  predicate CountStands(c: Config, s: World, step: Step, key: RowKey) {
    var number := NumberInserted(c, s, step, key);
    number.Some? ==> number.value == LedgerSize(s.db.attempts, key) + 1
  }

  /** It is inserted while a new count would choose the same action. */
  predicate ActionStands(c: Config, s: World, step: Step, key: RowKey) {
    var number := NumberInserted(c, s, step, key);
    number.Some? ==> ActionFor(number.value, c.maxAttempts) == ActionFor(LedgerSize(s.db.attempts, key) + 1, c.maxAttempts)
  }

  lemma WorkerLedger(c: Config, s: World, w: nat, a: WorkerAction)
    requires WorkerCan(c, s, w, a) && !a.AddAttempt?
    ensures WorkerDoes(c, s, w, a).db.attempts == s.db.attempts
    ensures var phase := WorkerDoes(c, s, w, a).workers[w].phase; phase.Counted? && !a.CountAttempts? ==> phase == s.workers[w].phase
  {
    hide LedgerSize, Upsert, ActiveHold;
  }

  /** What a step adds to the attempts of one row. */
  lemma StepRecords(c: Config, s: World, step: Step, key: RowKey)
    requires Enabled(c, s, step)
    ensures var before, after := s.db.attempts, Apply(c, s, step).db.attempts;
            var number := NumberInserted(c, s, step, key);
            if number.Some? then
              && LedgerSize(after, key) == LedgerSize(before, key) + 1
              && Numbers(after, key) == Numbers(before, key) + [number.value]
              && RetryEntries(after, key) == RetryEntries(before, key) + if ActionFor(number.value, c.maxAttempts) == Retry then 1 else 0
            else
              LedgerSize(after, key) == LedgerSize(before, key) && Numbers(after, key) == Numbers(before, key)
              && RetryEntries(after, key) == RetryEntries(before, key)
  {
    hide TapDoes, FeedDoes, LedgerSize, Numbers, RetryEntries;
    match step
    case AtWorker(w, a) => WorkerRecords(c, s, w, a, key);
    case AtTap(t, a) => TapFrame(c, s, t, a);
    case AtFeeder(f, a) => FeederFrame(c, s, f, a);
    case AtOperator(a) => OperatorFrame(c, s, a);
  }

  lemma WorkerRecords(c: Config, s: World, w: nat, a: WorkerAction, key: RowKey)
    requires WorkerCan(c, s, w, a)
    ensures var before, after := s.db.attempts, WorkerDoes(c, s, w, a).db.attempts;
            if a.AddAttempt? && RowOf(c, s, w) == Some(key) then
              var number := s.workers[w].phase.count + 1;
              && LedgerSize(after, key) == LedgerSize(before, key) + 1
              && Numbers(after, key) == Numbers(before, key) + [number]
              && RetryEntries(after, key) == RetryEntries(before, key) + if ActionFor(number, c.maxAttempts) == Retry then 1 else 0
            else
              LedgerSize(after, key) == LedgerSize(before, key) && Numbers(after, key) == Numbers(before, key)
              && RetryEntries(after, key) == RetryEntries(before, key)
  {
    hide LedgerSize, Numbers, RetryEntries;
    if a.AddAttempt? {
      var phase := s.workers[w].phase;
      var n := phase.count + 1;
      EntryCounts(s.db.attempts, Attempt(KeyOf(phase.job, c.Name(c.slots[w].stage)), phase.job.partitionKey, phase.job.targetTags,
                                         n, ActionFor(n, c.maxAttempts), phase.detail), key);
    } else {
      hide WorkerDoes;
      WorkerLedger(c, s, w, a);
    }
  }

  // ---------------------------------------------------------------- recordings of one row that do not overlap

  /** A recording of this row begins only while no other one is between its count and its insert. */
  predicate StartsAlone(c: Config, s: World, step: Step, key: RowKey) {
    Enabled(c, s, step) && step.AtWorker? && step.work.CountAttempts? && RowOf(c, s, step.w) == Some(key) ==>
      forall v :: 0 <= v < |s.workers| && v < |c.slots| ==> !Counting(c, s, v, key)
  }

  predicate Counting(c: Config, s: World, w: nat, key: RowKey)
    requires w < |s.workers| && w < |c.slots|
  {
    s.workers[w].phase.Counted? && RowOf(c, s, w) == Some(key)
  }

  /** At most one connection is between count and insert for this row, and its count stands. */
  ghost predicate AloneInv(c: Config, s: World, key: RowKey) {
    && |s.workers| == |c.slots|
    && (forall w :: 0 <= w < |s.workers| && Counting(c, s, w, key) ==> s.workers[w].phase.count == LedgerSize(s.db.attempts, key))
    && (forall v, w :: 0 <= v < |s.workers| && 0 <= w < |s.workers| && Counting(c, s, v, key) && Counting(c, s, w, key) ==> v == w)
  }

  lemma InsertLeaves(c: Config, s: World, w: nat)
    requires WorkerCan(c, s, w, AddAttempt)
    ensures !WorkerDoes(c, s, w, AddAttempt).workers[w].phase.Counted?
  {
  }

  lemma CountIsCurrent(c: Config, s: World, w: nat, key: RowKey)
    requires WorkerCan(c, s, w, CountAttempts)
    ensures var s' := WorkerDoes(c, s, w, CountAttempts);
            && RowOf(c, s', w) == RowOf(c, s, w) && s'.db == s.db
            && (RowOf(c, s, w) == Some(key) ==> s'.workers[w].phase.count == LedgerSize(s.db.attempts, key))
  {
  }

  lemma WorkerKeepsAlone(c: Config, s: World, w: nat, a: WorkerAction, key: RowKey)
    requires AloneInv(c, s, key) && WorkerCan(c, s, w, a) && StartsAlone(c, s, AtWorker(w, a), key)
    ensures AloneInv(c, WorkerDoes(c, s, w, a), key)
  {
    hide WorkerDoes, Numbers, RetryEntries, LedgerSize;
    var s' := WorkerDoes(c, s, w, a);
    WorkerFrame(c, s, w, a);
    WorkerRecords(c, s, w, a, key);
    if a.AddAttempt? {
      InsertLeaves(c, s, w);
    } else if a.CountAttempts? {
      CountIsCurrent(c, s, w, key);
    } else {
      WorkerLedger(c, s, w, a);
    }
    AloneAfter(c, s, s', w, key);
  }

  lemma AloneAfter(c: Config, s: World, s': World, w: nat, key: RowKey)
    requires AloneInv(c, s, key)
    requires w < |s.workers| && |s'.workers| == |s.workers| && s'.workers == s.workers[w := s'.workers[w]]
    requires LedgerSize(s'.db.attempts, key) == LedgerSize(s.db.attempts, key) || OthersIdle(c, s, w, key)
    requires Counting(c, s', w, key) ==>
               s'.workers[w].phase.count == LedgerSize(s'.db.attempts, key) && (Counting(c, s, w, key) || OthersIdle(c, s, w, key))
    ensures AloneInv(c, s', key)
  {
    hide LedgerSize;
    OthersCount(c, s, s', w, key);
  }

  predicate OthersIdle(c: Config, s: World, w: nat, key: RowKey)
    requires |s.workers| == |c.slots|
  {
    forall v :: 0 <= v < |s.workers| && v != w ==> !Counting(c, s, v, key)
  }

  lemma OthersCount(c: Config, s: World, s': World, w: nat, key: RowKey)
    requires |s.workers| == |c.slots| && w < |s.workers| && |s'.workers| == |s.workers| && s'.workers == s.workers[w := s'.workers[w]]
    ensures forall v :: 0 <= v < |s.workers| && v != w ==> s'.workers[v] == s.workers[v] && Counting(c, s', v, key) == Counting(c, s, v, key)
  {
  }

  lemma StepKeepsAlone(c: Config, s: World, step: Step, key: RowKey)
    requires AloneInv(c, s, key) && Enabled(c, s, step) && StartsAlone(c, s, step, key)
    ensures AloneInv(c, Apply(c, s, step), key)
  {
    hide WorkerDoes, TapDoes, FeedDoes, LedgerSize, AloneInv;
    match step
    case AtWorker(w, a) => WorkerKeepsAlone(c, s, w, a, key);
    case AtTap(t, a) =>
      TapFrame(c, s, t, a);
      SameAlone(c, s, Apply(c, s, step), key);
    case AtFeeder(f, a) =>
      FeederFrame(c, s, f, a);
      SameAlone(c, s, Apply(c, s, step), key);
    case AtOperator(a) =>
      OperatorFrame(c, s, a);
      SameAlone(c, s, Apply(c, s, step), key);
  }

  lemma SameAlone(c: Config, s: World, s': World, key: RowKey)
    requires AloneInv(c, s, key) && s'.workers == s.workers && s'.db.attempts == s.db.attempts
    ensures AloneInv(c, s', key)
  {
    assert forall w :: 0 <= w < |s.workers| ==> Counting(c, s', w, key) == Counting(c, s, w, key);
  }

  /** Then a count stands when its attempt is inserted. */
  lemma AloneCountStands(c: Config, s: World, step: Step, key: RowKey)
    requires AloneInv(c, s, key)
    ensures CountStands(c, s, step, key) && ActionStands(c, s, step, key)
  {
    hide LedgerSize;
    if NumberInserted(c, s, step, key).Some? {
      assert Counting(c, s, step.w, key);
    }
  }

  /** With one connection per stage, recordings of a row never overlap. */
  lemma OneConnectionStartsAlone(c: Config, s: World, step: Step, key: RowKey)
    requires c.Valid() && |s.workers| == |c.slots|
    requires forall v, w :: 0 <= v < w < |c.slots| ==> c.slots[v].stage != c.slots[w].stage
    ensures StartsAlone(c, s, step, key)
  {
    if Enabled(c, s, step) && step.AtWorker? && step.work.CountAttempts? && RowOf(c, s, step.w) == Some(key) {
      forall v | 0 <= v < |s.workers| ensures !Counting(c, s, v, key) {
        if Counting(c, s, v, key) {
          c.manifest.StageNameInjective(c.slots[v].stage, c.slots[step.w].stage);
          assert false;
        }
      }
    }
  }
}
