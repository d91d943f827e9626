/** Progress read back from the event log (EventProgress in runtime/models.py, build_run_status in runtime/status.py). */
module Progress {
  import opened Common
  import opened Targeting
  import opened Manifest
  import opened Jobs
  import opened Documents
  import opened Store

  /** The jobs with an event of this kind at this stage. */
  function JobsWith(events: seq<Event>, stage: string, kind: EventKind): set<string> {
    set i | 0 <= i < |events| && events[i].stage == stage && events[i].kind == kind :: events[i].jobId
  }

  function TerminalsOf(events: seq<Event>): set<string> {
    set i | 0 <= i < |events| && events[i].kind == TerminalEvent :: events[i].jobId
  }

  datatype EventProgress = EventProgress(
    stageStarted: map<string, set<string>>,
    stageCompleted: map<string, set<string>>,
    terminalJobs: set<string>)

  /** `dict.get(stage, set())`. */
  function JobsAt(jobs: map<string, set<string>>, stage: string): set<string> {
    if stage in jobs then jobs[stage] else {}
  }

  ghost predicate Reads(progress: EventProgress, events: seq<Event>) {
    && (forall stage :: JobsAt(progress.stageStarted, stage) == JobsWith(events, stage, StageStarted))
    && (forall stage :: JobsAt(progress.stageCompleted, stage) == JobsWith(events, stage, StageOutput))
    && progress.terminalJobs == TerminalsOf(events)
  }

  lemma JobsWithGrows(events: seq<Event>, i: nat, stage: string, kind: EventKind)
    requires i < |events|
    ensures JobsWith(events[..i + 1], stage, kind)
            == JobsWith(events[..i], stage, kind) + if events[i].stage == stage && events[i].kind == kind then {events[i].jobId} else {}
  {
    assert events[..i + 1] == events[..i] + [events[i]];
    ProgressOfConcatenation(events[..i], [events[i]], stage, kind);
    assert [events[i]][0] == events[i];
  }

  lemma TerminalsGrow(events: seq<Event>, i: nat)
    requires i < |events|
    ensures TerminalsOf(events[..i + 1]) == TerminalsOf(events[..i]) + if events[i].kind == TerminalEvent then {events[i].jobId} else {}
  {
    assert events[..i + 1] == events[..i] + [events[i]];
    ProgressOfConcatenation(events[..i], [events[i]], "", TerminalEvent);
    assert [events[i]][0] == events[i];
  }

  /** Folding a concatenation is the union of the folds. */
  lemma ProgressOfConcatenation(a: seq<Event>, b: seq<Event>, stage: string, kind: EventKind)
    ensures JobsWith(a + b, stage, kind) == JobsWith(a, stage, kind) + JobsWith(b, stage, kind)
    ensures TerminalsOf(a + b) == TerminalsOf(a) + TerminalsOf(b)
  {
    var all := a + b;
    forall i | 0 <= i < |all| ensures if i < |a| then all[i] == a[i] else all[i] == b[i - |a|] {
    }
    forall i | 0 <= i < |b| ensures all[|a| + i] == b[i] {
    }
    forall id | id in JobsWith(b, stage, kind) ensures id in JobsWith(all, stage, kind) {
      var i :| 0 <= i < |b| && b[i].stage == stage && b[i].kind == kind && b[i].jobId == id;
      assert all[|a| + i] == b[i];
    }
    forall id | id in TerminalsOf(b) ensures id in TerminalsOf(all) {
      var i :| 0 <= i < |b| && b[i].kind == TerminalEvent && b[i].jobId == id;
      assert all[|a| + i] == b[i];
    }
  }

  /** Progress depends only on which events there are: not on their order, and not on how often each occurs. */
  lemma ProgressIgnoresOrderAndDuplicates(a: seq<Event>, b: seq<Event>, p: EventProgress, q: EventProgress)
    requires Reads(p, a) && Reads(q, b)
    requires forall e :: e in a <==> e in b
    ensures forall stage :: JobsAt(p.stageStarted, stage) == JobsAt(q.stageStarted, stage)
    ensures forall stage :: JobsAt(p.stageCompleted, stage) == JobsAt(q.stageCompleted, stage)
    ensures p.terminalJobs == q.terminalJobs
  {
    forall stage, kind ensures JobsWith(a, stage, kind) == JobsWith(b, stage, kind) {
      SameEventsSameJobs(a, b, stage, kind);
      SameEventsSameJobs(b, a, stage, kind);
    }
    SameEventsSameJobs(a, b, "", TerminalEvent);
    SameEventsSameJobs(b, a, "", TerminalEvent);
  }

  lemma SameEventsSameJobs(a: seq<Event>, b: seq<Event>, stage: string, kind: EventKind)
    requires forall e :: e in a ==> e in b
    ensures JobsWith(a, stage, kind) <= JobsWith(b, stage, kind) && TerminalsOf(a) <= TerminalsOf(b)
  {
    forall i | 0 <= i < |a| ensures exists j :: 0 <= j < |b| && b[j] == a[i] {
      assert a[i] in b;
    }
  }

  /** `EventProgress.from_events`. */
  method FromEvents(events: seq<Event>) returns (progress: EventProgress)
    ensures Reads(progress, events)
  {
    progress := EventProgress(map[], map[], {});
    for i := 0 to |events|
      invariant Reads(progress, events[..i])
    {
      var e := events[i];
      ghost var before := progress;
      match e.kind {
        case StageStarted =>
          progress := progress.(stageStarted := progress.stageStarted[e.stage := JobsAt(progress.stageStarted, e.stage) + {e.jobId}]);
        case StageOutput =>
          progress := progress.(stageCompleted := progress.stageCompleted[e.stage := JobsAt(progress.stageCompleted, e.stage) + {e.jobId}]);
        case TerminalEvent =>
          progress := progress.(terminalJobs := progress.terminalJobs + {e.jobId});
      }
      ReadsOneMore(before, progress, events, i);
    }
    assert events[..|events|] == events;
  }

  lemma ReadsOneMore(before: EventProgress, after: EventProgress, events: seq<Event>, i: nat)
    requires i < |events| && Reads(before, events[..i])
    requires forall stage :: JobsAt(after.stageStarted, stage) == JobsAt(before.stageStarted, stage) + if events[i].stage == stage && events[i].kind == StageStarted then {events[i].jobId} else {}
    requires forall stage :: JobsAt(after.stageCompleted, stage) == JobsAt(before.stageCompleted, stage) + if events[i].stage == stage && events[i].kind == StageOutput then {events[i].jobId} else {}
    requires after.terminalJobs == before.terminalJobs + if events[i].kind == TerminalEvent then {events[i].jobId} else {}
    ensures Reads(after, events[..i + 1])
  {
    TerminalsGrow(events, i);
    forall stage ensures JobsAt(after.stageStarted, stage) == JobsWith(events[..i + 1], stage, StageStarted) {
      JobsWithGrows(events, i, stage, StageStarted);
    }
    forall stage ensures JobsAt(after.stageCompleted, stage) == JobsWith(events[..i + 1], stage, StageOutput) {
      JobsWithGrows(events, i, stage, StageOutput);
    }
  }

  // ---------------------------------------------------------------- counting rows by status

  function StatusCount(states: seq<Status>, status: Status): nat {
    if states == [] then 0
    else StatusCount(states[..|states| - 1], status) + if states[|states| - 1] == status then 1 else 0
  }

  const ALL_STATUSES: set<Status> := {Pending, Running, Completed, RetryWaiting, Held, Failed, DeadLettered, Terminal}

  /** `count_job_states`: an entry for every status. */
  method CountJobStates(states: seq<Status>) returns (counts: map<Status, nat>)
    ensures counts.Keys == ALL_STATUSES
    ensures forall status :: status in counts ==> counts[status] == StatusCount(states, status)
    ensures forall status :: status in counts ==> counts[status] == |set i | 0 <= i < |states| && states[i] == status|
  {
    counts := map status | status in ALL_STATUSES :: 0;
    for i := 0 to |states|
      invariant counts.Keys == ALL_STATUSES
      invariant forall status :: status in counts ==> counts[status] == StatusCount(states[..i], status)
    {
      assert states[..i + 1][..i] == states[..i];
      EveryStatusIsListed(states[i]);
      counts := counts[states[i] := counts[states[i]] + 1];
    }
    assert states[..|states|] == states;
    forall status | status in counts {
      StatusCounted(states, status);
    }
  }

  lemma {:induction false} StatusCounted(states: seq<Status>, status: Status)
    ensures StatusCount(states, status) == |set i | 0 <= i < |states| && states[i] == status|
  {
    if states != [] {
      StatusCounted(states[..|states| - 1], status);
      LastStatusCounts(states[..|states| - 1], states[|states| - 1], status);
      assert states == states[..|states| - 1] + [states[|states| - 1]];
    }
  }

  lemma LastStatusCounts(rest: seq<Status>, last: Status, status: Status)
    ensures var all := rest + [last];
            |set i | 0 <= i < |all| && all[i] == status| == |set i | 0 <= i < |rest| && rest[i] == status| + if last == status then 1 else 0
  {
    var all := rest + [last];
    var mine := set i | 0 <= i < |all| && all[i] == status;
    var before := set i | 0 <= i < |rest| && rest[i] == status;
    assert mine == if last == status then before + {|rest|} else before;
  }

  lemma EveryStatusIsListed(status: Status)
    ensures status in ALL_STATUSES
  {
  }

  /** No row is missed or counted twice. */
  lemma {:induction false} CountsAddUp(states: seq<Status>)
    ensures StatusCount(states, Pending) + StatusCount(states, Running) + StatusCount(states, Completed)
            + StatusCount(states, RetryWaiting) + StatusCount(states, Held) + StatusCount(states, Failed)
            + StatusCount(states, DeadLettered) + StatusCount(states, Terminal) == |states|
  {
    if states != [] {
      CountsAddUp(states[..|states| - 1]);
    }
  }

  // ---------------------------------------------------------------- run status

  datatype StageNumbers = StageNumbers(stage: string, expectedJobs: nat, startedJobs: nat, completedJobs: nat, inFlightJobs: nat)
  {
    predicate IsComplete() {
      completedJobs >= expectedJobs
    }
  }

  datatype RunNumbers = RunNumbers(expectedJobs: nat, terminalJobs: nat, stages: seq<StageNumbers>)
  {
    predicate IsComplete() {
      terminalJobs >= expectedJobs
    }
  }

  function OfRun(events: seq<Event>, runId: string): seq<Event> {
    if events == [] then []
    else
      var last := events[|events| - 1];
      OfRun(events[..|events| - 1], runId) + if last.runId == runId then [last] else []
  }

  lemma {:induction false} OfRunKeepsItsEvents(events: seq<Event>, runId: string, e: Event)
    ensures e in OfRun(events, runId) <==> e in events && e.runId == runId
  {
    if events != [] {
      OfRunKeepsItsEvents(events[..|events| - 1], runId, e);
      assert events == events[..|events| - 1] + [events[|events| - 1]];
    }
  }

  /** The jobs counted at a stage are the run's jobs with that event logged. */
  lemma JobsOfRun(events: seq<Event>, runId: string, stage: string, kind: EventKind, jobId: string)
    ensures jobId in JobsWith(OfRun(events, runId), stage, kind) <==> Logged(events, runId, jobId, stage, kind)
  {
    var mine := OfRun(events, runId);
    if jobId in JobsWith(mine, stage, kind) {
      var i :| 0 <= i < |mine| && mine[i].stage == stage && mine[i].kind == kind && mine[i].jobId == jobId;
      OfRunKeepsItsEvents(events, runId, mine[i]);
    }
    if Logged(events, runId, jobId, stage, kind) {
      var i :| 0 <= i < |events| && events[i].runId == runId && events[i].jobId == jobId
        && events[i].stage == stage && events[i].kind == kind;
      OfRunKeepsItsEvents(events, runId, events[i]);
    }
  }

  lemma JobsInLog(events: seq<Event>, runId: string, stage: string, kind: EventKind)
    ensures JobsWith(OfRun(events, runId), stage, kind)
            == set i | 0 <= i < |events| && events[i].runId == runId && events[i].stage == stage && events[i].kind == kind :: events[i].jobId
  {
    hide OfRun, JobsWith;
    forall id ensures id in JobsWith(OfRun(events, runId), stage, kind)
      <==> id in set i | 0 <= i < |events| && events[i].runId == runId && events[i].stage == stage && events[i].kind == kind :: events[i].jobId
    {
      JobsOfRun(events, runId, stage, kind, id);
    }
  }

  lemma TerminalsOfRun(events: seq<Event>, runId: string)
    ensures TerminalsOf(OfRun(events, runId)) == TerminalIds(events, runId)
  {
    var mine := OfRun(events, runId);
    forall id | id in TerminalsOf(mine) ensures id in TerminalIds(events, runId) {
      var i :| 0 <= i < |mine| && mine[i].kind == TerminalEvent && mine[i].jobId == id;
      OfRunKeepsItsEvents(events, runId, mine[i]);
      var j :| 0 <= j < |events| && events[j] == mine[i];
    }
    forall id | id in TerminalIds(events, runId) ensures id in TerminalsOf(mine) {
      var i :| 0 <= i < |events| && events[i].runId == runId && events[i].kind == TerminalEvent && events[i].jobId == id;
      OfRunKeepsItsEvents(events, runId, events[i]);
      var j :| 0 <= j < |mine| && mine[j] == events[i];
    }
  }

  method ReadByRunId(store: RunStore, runId: string) returns (events: seq<Event>)
    ensures events == OfRun(store.events, runId)
  {
    events := [];
    for i := 0 to |store.events|
      invariant events == OfRun(store.events[..i], runId)
    {
      assert store.events[..i + 1][..i] == store.events[..i];
      if store.events[i].runId == runId {
        events := events + [store.events[i]];
      }
    }
    assert store.events[..|store.events|] == store.events;
  }

  /** `max(0, len(started) - len(completed))`. */
  function InFlight(started: set<string>, completed: set<string>): nat {
    if |started| - |completed| >= 0 then |started| - |completed| else 0
  }

  /** When every completed job has started, the difference is the number of jobs in between and needs no clamp. */
  lemma InFlightCountsOpenJobs(started: set<string>, completed: set<string>)
    requires completed <= started
    ensures InFlight(started, completed) == |started - completed| == |started| - |completed|
  {
    assert started == completed + (started - completed);
  }

  function NumbersOf(db: Db, m: RunManifest, k: nat): StageNumbers
    requires k < |m.stages|
  {
    var mine := OfRun(db.events, m.runId);
    var started := JobsWith(mine, m.stages[k].name, StageStarted);
    var completed := JobsWith(mine, m.stages[k].name, StageOutput);
    StageNumbers(m.stages[k].name, ExpectedCount(db.batches, m.runId), |started|, |completed|, InFlight(started, completed))
  }

  lemma NumbersSpelledOut(db: Db, m: RunManifest)
    ensures forall k :: 0 <= k < |m.stages| ==>
              var events, name := db.events, m.stages[k].name;
              var started := set i | 0 <= i < |events| && events[i].runId == m.runId && events[i].stage == name && events[i].kind == StageStarted :: events[i].jobId;
              var completed := set i | 0 <= i < |events| && events[i].runId == m.runId && events[i].stage == name && events[i].kind == StageOutput :: events[i].jobId;
              NumbersOf(db, m, k) == StageNumbers(name, ExpectedCount(db.batches, m.runId), |started|, |completed|,
                                                  if |started| > |completed| then |started| - |completed| else 0)
  {
    hide OfRun, JobsWith, ExpectedCount;
    forall k | 0 <= k < |m.stages|
      ensures var events, name := db.events, m.stages[k].name;
              var started := set i | 0 <= i < |events| && events[i].runId == m.runId && events[i].stage == name && events[i].kind == StageStarted :: events[i].jobId;
              var completed := set i | 0 <= i < |events| && events[i].runId == m.runId && events[i].stage == name && events[i].kind == StageOutput :: events[i].jobId;
              NumbersOf(db, m, k) == StageNumbers(name, ExpectedCount(db.batches, m.runId), |started|, |completed|,
                                                  if |started| > |completed| then |started| - |completed| else 0)
    {
      JobsInLog(db.events, m.runId, m.stages[k].name, StageStarted);
      JobsInLog(db.events, m.runId, m.stages[k].name, StageOutput);
    }
  }

  /** The progress numbers of `build_run_status`. */
  method BuildRunStatus(m: RunManifest, store: RunStore) returns (status: RunNumbers)
    ensures status.expectedJobs == ExpectedCount(store.seedBatches, m.runId)
    ensures status.terminalJobs == |TerminalIds(store.events, m.runId)|
    ensures |status.stages| == |m.stages| && forall k :: 0 <= k < |m.stages| ==> status.stages[k] == NumbersOf(store.Contents(), m, k)
    ensures status.IsComplete() <==> |TerminalIds(store.events, m.runId)| >= ExpectedCount(store.seedBatches, m.runId)
    ensures forall k :: 0 <= k < |m.stages| ==>
              var events, name := store.events, m.stages[k].name;
              var started := set i | 0 <= i < |events| && events[i].runId == m.runId && events[i].stage == name && events[i].kind == StageStarted :: events[i].jobId;
              var completed := set i | 0 <= i < |events| && events[i].runId == m.runId && events[i].stage == name && events[i].kind == StageOutput :: events[i].jobId;
              status.stages[k] == StageNumbers(name, status.expectedJobs, |started|, |completed|,
                                               if |started| > |completed| then |started| - |completed| else 0)
    ensures var events := store.events;
            status.terminalJobs == |set i | 0 <= i < |events| && events[i].runId == m.runId && events[i].kind == TerminalEvent :: events[i].jobId|
  {
    var events := ReadByRunId(store, m.runId);
    var progress := FromEvents(events);
    TerminalsOfRun(store.events, m.runId);
    var expected := store.ExpectedJobCount(m.runId);
    var stages: seq<StageNumbers> := [];
    for k := 0 to |m.stages|
      invariant |stages| == k && forall j :: 0 <= j < k ==> stages[j] == NumbersOf(store.Contents(), m, j)
    {
      var started := JobsAt(progress.stageStarted, m.stages[k].name);
      var completed := JobsAt(progress.stageCompleted, m.stages[k].name);
      stages := stages + [StageNumbers(m.stages[k].name, expected, |started|, |completed|, InFlight(started, completed))];
    }
    NumbersSpelledOut(store.Contents(), m);
    return RunNumbers(expected, |progress.terminalJobs|, stages);
  }

  /** `_target_complete`: the whole run for "terminal", else the first stage of that name; an unknown target is an error. */
  method TargetComplete(status: RunNumbers, target: string) returns (result: Result<bool, string>)
    ensures target == "terminal" ==> result == Ok(status.terminalJobs >= status.expectedJobs)
    ensures target != "terminal" ==>
              (result.Err? <==> forall k :: 0 <= k < |status.stages| ==> status.stages[k].stage != target)
    ensures target != "terminal" && result.Ok? ==>
              exists k :: 0 <= k < |status.stages| && status.stages[k].stage == target
                && (result.value <==> status.stages[k].completedJobs >= status.stages[k].expectedJobs)
                && forall j :: 0 <= j < k ==> status.stages[j].stage != target
  {
    if target == TERMINAL_STAGE {
      return Ok(status.IsComplete());
    }
    for k := 0 to |status.stages|
      invariant forall j :: 0 <= j < k ==> status.stages[j].stage != target
    {
      if status.stages[k].stage == target {
        return Ok(status.stages[k].IsComplete());
      }
    }
    return Err(target);
  }
}
