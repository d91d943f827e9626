/** Queue names and routing of a run (manifest/manifest.py, amqp/queues.py, the setup loop of pipeline/runner.py). */
module Manifest {
  import opened Common
  import opened Targeting

  const TERMINAL_STAGE: string := "terminal"

  datatype PartitionQueues = PartitionQueues(partitionKey: string, inputQueue: string, outputQueue: string)

  function PartitionQueueName(base: string, partitionKey: string): string {
    base + ".partition." + Sanitize(partitionKey)
  }

  datatype Stage = Stage(
    name: string,
    stepIndex: nat,
    handlerKey: string,
    inputQueue: string,
    outputQueue: string,
    defaultWorkers: int,
    partitionQueues: map<string, PartitionQueues>)
  {
    function InputQueueForPartition(key: string): string {
      if key == DEFAULT_PARTITION_KEY then inputQueue
      else if key in partitionQueues then partitionQueues[key].inputQueue
      else PartitionQueueName(inputQueue, key)
    }

    function OutputQueueForPartition(key: string): string {
      if key == DEFAULT_PARTITION_KEY then outputQueue
      else if key in partitionQueues then partitionQueues[key].outputQueue
      else PartitionQueueName(outputQueue, key)
    }

    function WithPartition(key: string): Stage {
      if key == DEFAULT_PARTITION_KEY || key in partitionQueues then this
      else
        this.(partitionQueues := partitionQueues[key := PartitionQueues(
          key, PartitionQueueName(inputQueue, key), PartitionQueueName(outputQueue, key))])
    }
  }

  datatype RunManifest = RunManifest(runId: string, pipelineId: string, queuePrefix: string, stages: seq<Stage>)
  {
    function StageIndexFrom(name: string, i: nat): Option<nat>
      requires i <= |stages|
      decreases |stages| - i
    {
      if i == |stages| then None
      else if stages[i].name == name then Some(i)
      else StageIndexFrom(name, i + 1)
    }

    /** The first stage with this name; the source raises `ValueError` when there is none. */
    function StageIndex(name: string): Option<nat> {
      StageIndexFrom(name, 0)
    }

    /** The queue between position `k - 1` and position `k`; position `|stages|` is the final completed queue. */
    function QueueAt(k: nat, key: string): string
      requires k <= |stages| && stages != []
    {
      if k == 0 then stages[0].InputQueueForPartition(key) else stages[k - 1].OutputQueueForPartition(key)
    }

    function StageInputQueue(name: string, key: string): Option<string> {
      match StageIndex(name)
      case None => None
      case Some(i) =>
        StageIndexInRange(name, 0);
        Some(if i == 0 then stages[i].InputQueueForPartition(key) else stages[i - 1].OutputQueueForPartition(key))
    }

    function StageOutputQueue(name: string, key: string): Option<string> {
      match StageIndex(name)
      case None => None
      case Some(i) =>
        StageIndexInRange(name, 0);
        Some(stages[i].OutputQueueForPartition(key))
    }

    lemma {:induction false} StageIndexInRange(name: string, i: nat)
      requires i <= |stages|
      ensures StageIndexFrom(name, i).Some? ==> i <= StageIndexFrom(name, i).value < |stages|
      decreases |stages| - i
    {
      if i < |stages| && stages[i].name != name {
        StageIndexInRange(name, i + 1);
      }
    }

    function WithPartition(key: string): RunManifest {
      if key == DEFAULT_PARTITION_KEY then this
      else this.(stages := seq(|stages|, i requires 0 <= i < |stages| => stages[i].WithPartition(key)))
    }

    /** The queues `declare_partition_queues` declares. */
    function PartitionQueueSet(key: string): set<string> {
      (set i | 0 <= i < |stages| :: stages[i].InputQueueForPartition(key))
      + (set i | 0 <= i < |stages| :: stages[i].OutputQueueForPartition(key))
    }

    /** The name recorded for the work at a position: a stage name, or "terminal" past the last stage. */
    function StageName(k: nat): string {
      if k < |stages| then stages[k].name else TERMINAL_STAGE
    }

    ghost predicate DistinctNames() {
      && (forall i, j :: 0 <= i < j < |stages| ==> stages[i].name != stages[j].name)
      && (forall i :: 0 <= i < |stages| ==> stages[i].name != TERMINAL_STAGE)
    }

    /** What `setup_run_queues` builds: chained stages, and partition entries that agree with the computed names. */
    ghost predicate WellFormed() {
      && stages != []
      && (forall i :: 0 <= i < |stages| ==>
            && stages[i].stepIndex == i
            && stages[i].inputQueue == BaseQueue(queuePrefix, i)
            && stages[i].outputQueue == BaseQueue(queuePrefix, i + 1)
            && (forall key :: key in stages[i].partitionQueues ==>
                  stages[i].partitionQueues[key] == PartitionQueues(
                    key, PartitionQueueName(stages[i].inputQueue, key), PartitionQueueName(stages[i].outputQueue, key))))
    }

    lemma StageNameInjective(i: nat, j: nat)
      requires DistinctNames()
      requires i <= |stages| && j <= |stages| && StageName(i) == StageName(j)
      ensures i == j
    {
      if i < j {
        assert false;
      } else if j < i {
        assert false;
      }
    }

    lemma {:induction false} FirstStageFinds(i: nat, from: nat)
      requires from <= i < |stages| && forall j :: from <= j < i ==> stages[j].name != stages[i].name
      ensures StageIndexFrom(stages[i].name, from) == Some(i)
      decreases i - from
    {
      if from < i {
        FirstStageFinds(i, from + 1);
      }
    }

    lemma {:induction false} StageIndexFinds(k: nat, i: nat)
      requires DistinctNames()
      requires i <= k < |stages|
      ensures StageIndexFrom(stages[k].name, i) == Some(k)
      decreases k - i
    {
      if i < k {
        StageIndexFinds(k, i + 1);
      }
    }

    /** The queues are chained: looked up by name or read from its own entry, a stage's input is what its predecessor publishes to. */
    lemma RoutesChain(k: nat, key: string)
      requires WellFormed() && DistinctNames()
      requires k < |stages|
      ensures StageInputQueue(stages[k].name, key) == Some(QueueAt(k, key)) == Some(stages[k].InputQueueForPartition(key))
      ensures StageOutputQueue(stages[k].name, key) == Some(QueueAt(k + 1, key))
      ensures k > 0 ==> StageOutputQueue(stages[k - 1].name, key) == StageInputQueue(stages[k].name, key)
    {
      StageIndexFinds(k, 0);
      InputIsQueueAt(k, key);
      if k > 0 {
        StageIndexFinds(k - 1, 0);
      }
    }

    lemma QueueAtName(k: nat, key: string)
      requires WellFormed() && k <= |stages|
      ensures QueueAt(k, key) == BaseQueue(queuePrefix, k) + KeySuffix(key)
    {
      hide BaseQueue, Sanitize;
      var i := if k == 0 then 0 else k - 1;
      Regroup(BaseQueue(queuePrefix, k), ".partition.", Sanitize(key));
      assert key in stages[i].partitionQueues ==> stages[i].partitionQueues[key].partitionKey == key;
    }

    /** A name determines its position, and its key up to what the sanitizer identifies. */
    lemma QueueNamesInjective(i: nat, p: string, j: nat, q: string)
      requires WellFormed() && i <= |stages| && j <= |stages|
      ensures QueueAt(i, p) == QueueAt(j, q) <==> i == j && SameKey(p, q)
      ensures Clean(p) && Clean(q) && QueueAt(i, p) == QueueAt(j, q) ==> p == q
    {
      QueueAtName(i, p);
      QueueAtName(j, q);
      if QueueAt(i, p) == QueueAt(j, q) {
        BaseQueueDecodes(queuePrefix, i, KeySuffix(p), j, KeySuffix(q));
      }
      KeySuffixDecodes(p, q);
      SanitizeFixedPoints(p);
      SanitizeFixedPoints(q);
    }

    /** Registering a partition changes no route. */
    lemma WithPartitionKeepsRoutes(added: string, k: nat, key: string)
      requires WellFormed() && k <= |stages|
      ensures WithPartition(added).WellFormed()
      ensures WithPartition(added).QueueAt(k, key) == QueueAt(k, key)
    {
      var m := WithPartition(added);
      forall i | 0 <= i < |stages|
        ensures m.stages[i] == stages[i] || m.stages[i] == stages[i].WithPartition(added)
        ensures forall q :: q in m.stages[i].partitionQueues ==>
                  m.stages[i].partitionQueues[q] == PartitionQueues(
                    q, PartitionQueueName(stages[i].inputQueue, q), PartitionQueueName(stages[i].outputQueue, q))
      {
      }
      assert m.WellFormed();
      m.QueueAtName(k, key);
      QueueAtName(k, key);
    }

    /** Registering a partition records its queue names in every stage, and leaves the other entries. */
    lemma WithPartitionRegisters(added: string, k: nat)
      requires k < |stages| && added != DEFAULT_PARTITION_KEY
      ensures |WithPartition(added).stages| == |stages|
      ensures var before, after := stages[k], WithPartition(added).stages[k];
              && after.(partitionQueues := before.partitionQueues) == before
              && after.partitionQueues
                 == if added in before.partitionQueues then before.partitionQueues
                    else before.partitionQueues[added := PartitionQueues(
                      added, before.inputQueue + ".partition." + Sanitize(added), before.outputQueue + ".partition." + Sanitize(added))]
    {
    }

    /** Declaring one partition declares every queue a job with that key can be routed through. */
    lemma PartitionQueueSetCovers(key: string)
      requires WellFormed()
      ensures forall q :: q in PartitionQueueSet(key) <==> exists k: nat :: k <= |stages| && q == QueueAt(k, key)
    {
      forall k: nat | k <= |stages| ensures QueueAt(k, key) in PartitionQueueSet(key) {
        var i := if k == 0 then 0 else k - 1;
        assert 0 <= i < |stages|;
      }
      forall q | q in PartitionQueueSet(key) ensures exists k: nat :: k <= |stages| && q == QueueAt(k, key) {
        if i :| 0 <= i < |stages| && q == stages[i].OutputQueueForPartition(key) {
          assert q == QueueAt(i + 1, key);
        } else {
          var i :| 0 <= i < |stages| && q == stages[i].InputQueueForPartition(key);
          InputIsQueueAt(i, key);
        }
      }
    }

    lemma InputIsQueueAt(i: nat, key: string)
      requires WellFormed() && i < |stages|
      ensures stages[i].InputQueueForPartition(key) == QueueAt(i, key)
    {
      QueueAtName(i, key);
      assert key in stages[i].partitionQueues ==> stages[i].partitionQueues[key].partitionKey == key;
    }
  }

  // ---------------------------------------------------------------- names of the base queues

  /** `str(n)` for a natural number. */
  function Decimal(n: nat): string {
    if n < 10 then [('0' as int + n) as char] else Decimal(n / 10) + [('0' as int + n % 10) as char]
  }

  function DecimalValue(s: string): int {
    if s == [] then 0 else 10 * DecimalValue(s[..|s| - 1]) + (s[|s| - 1] as int - '0' as int)
  }

  lemma {:induction false} DecimalReads(n: nat)
    ensures DecimalValue(Decimal(n)) == n
    ensures '.' !in Decimal(n)
  {
    if n >= 10 {
      DecimalReads(n / 10);
      var s := Decimal(n);
      assert s[..|s| - 1] == Decimal(n / 10);
    } else {
      assert Decimal(n)[..0] == [];
    }
  }

  /** Decimal digits, most significant first. */
  lemma DecimalSpelled(n: nat, d: nat)
    requires d < 10
    ensures Decimal(d) == ["0123456789"[d]]
    ensures n > 0 ==> Decimal(10 * n + d) == Decimal(n) + ["0123456789"[d]]
  {
    DigitIs(d);
    assert n > 0 ==> (10 * n + d) / 10 == n && (10 * n + d) % 10 == d;
  }

  lemma DigitIs(d: nat)
    requires d < 10
    ensures ('0' as int + d) as char == "0123456789"[d]
  {
  }

  function Tail(k: nat): string {
    if k == 0 then Decimal(1) + ".pending" else Decimal(k) + ".completed"
  }

  /** `{prefix}.s1.pending` at position 0, `{prefix}.s{k}.completed` after stage k. */
  function BaseQueue(prefix: string, k: nat): string {
    prefix + ".s" + Tail(k)
  }

  lemma BaseQueueSpelled(prefix: string, k: nat)
    ensures BaseQueue(prefix, k) == prefix + (if k == 0 then ".s1.pending" else ".s" + Decimal(k) + ".completed")
  {
    hide Decimal;
    DecimalSpelled(0, 1);
    Regroup(prefix, ".s", Tail(k));
    Regroup(".s", Decimal(k), ".completed");
  }

  function KeySuffix(key: string): string {
    if key == DEFAULT_PARTITION_KEY then [] else ".partition." + Sanitize(key)
  }

  /** Two keys name the same partition queue exactly when the sanitizer identifies them; "default" stands alone. */
  predicate SameKey(p: string, q: string) {
    p == q || (p != DEFAULT_PARTITION_KEY && q != DEFAULT_PARTITION_KEY && Sanitize(p) == Sanitize(q))
  }

  lemma KeySuffixDecodes(p: string, q: string)
    ensures KeySuffix(p) == KeySuffix(q) <==> SameKey(p, q)
  {
    var mark := ".partition.";
    if KeySuffix(p) == KeySuffix(q) && p != q {
      assert KeySuffix(DEFAULT_PARTITION_KEY) == [];
      assert KeySuffix(p)[|mark|..] == Sanitize(p) && KeySuffix(q)[|mark|..] == Sanitize(q);
    }
  }

  lemma DotIsNotEarlier(a: string, x: string, b: string, y: string)
    requires '.' !in b
    requires x != [] && x[0] == '.'
    requires a + x == b + y
    ensures |a| >= |b|
  {
    assert (a + x)[|a|] == '.';
    assert forall i :: 0 <= i < |b| ==> (b + y)[i] == b[i] && b[i] != '.';
  }

  /** Two dotted strings whose first parts hold no dot agree part by part. */
  lemma FirstDot(a: string, x: string, b: string, y: string)
    requires '.' !in a && '.' !in b
    requires x != [] && y != [] && x[0] == '.' && y[0] == '.'
    requires a + x == b + y
    ensures a == b && x == y
  {
    DotIsNotEarlier(a, x, b, y);
    DotIsNotEarlier(b, y, a, x);
    SplitAt(a, x);
    SplitAt(b, y);
  }

  lemma SplitAt(a: string, x: string)
    ensures (a + x)[..|a|] == a && (a + x)[|a|..] == x
  {
  }

  function Number(k: nat): nat {
    if k == 0 then 1 else k
  }

  function Role(k: nat): string {
    if k == 0 then ".pending" else ".completed"
  }

  lemma RegroupTail(prefix: string, k: nat, x: string)
    ensures BaseQueue(prefix, k) + x == (prefix + ".s") + (Decimal(Number(k)) + (Role(k) + x))
  {
    assert BaseQueue(prefix, k) == (prefix + ".s") + (Decimal(Number(k)) + Role(k));
  }

  lemma RolesDecode(i: nat, x: string, j: nat, y: string)
    requires Role(i) + x == Role(j) + y
    ensures (i == 0) == (j == 0) && x == y
  {
    assert (Role(i) + x)[1] == (if i == 0 then 'p' else 'c');
    assert (Role(j) + y)[1] == (if j == 0 then 'p' else 'c');
    SplitAt(Role(i), x);
    SplitAt(Role(j), y);
  }

  lemma BaseQueueDecodes(prefix: string, i: nat, x: string, j: nat, y: string)
    requires BaseQueue(prefix, i) + x == BaseQueue(prefix, j) + y
    ensures i == j && x == y
  {
    RegroupTail(prefix, i, x);
    RegroupTail(prefix, j, y);
    SplitAt(prefix + ".s", Decimal(Number(i)) + (Role(i) + x));
    SplitAt(prefix + ".s", Decimal(Number(j)) + (Role(j) + y));
    DecimalReads(Number(i));
    DecimalReads(Number(j));
    FirstDot(Decimal(Number(i)), Role(i) + x, Decimal(Number(j)), Role(j) + y);
    RolesDecode(i, x, j, y);
  }

  // ---------------------------------------------------------------- the setup loop

  datatype StageQueueNames = StageQueueNames(prefix: string, pendingName: string, completedName: string)

  /** `pending or f"{prefix}.pending"`: an absent or empty name falls back. */
  function BuildStageQueueNames(prefix: string, pending: Option<string>): StageQueueNames {
    StageQueueNames(
      prefix,
      if pending.Some? && pending.value != [] then pending.value else prefix + ".pending",
      prefix + ".completed")
  }

  datatype PipelineStep = PipelineStep(name: string, handlerKey: string)

  /** Names of the queues of stage `index`: its predecessor's completed queue, and its own. */
  function StageQueues(prefix: string, index: nat): StageQueueNames {
    StageQueueNames(prefix + ".s" + Decimal(index + 1), BaseQueue(prefix, index), BaseQueue(prefix, index + 1))
  }

  lemma BaseQueueIsNamed(prefix: string, k: nat)
    ensures BaseQueue(prefix, k) != []
  {
    hide Tail;
    assert |prefix + ".s"| >= 2;
  }

  lemma StageQueuesBuilt(prefix: string, index: nat, previous: Option<string>)
    requires index > 0 ==> previous == Some(BaseQueue(prefix, index))
    ensures BuildStageQueueNames(prefix + ".s" + Decimal(index + 1), if index == 0 then None else previous)
            == StageQueues(prefix, index)
    ensures StageQueues(prefix, index).completedName == BaseQueue(prefix, index + 1)
  {
    hide Decimal;
    Regroup(prefix + ".s", Decimal(index + 1), ".completed");
    Regroup(prefix + ".s", Decimal(1), ".pending");
    BaseQueueIsNamed(prefix, index);
  }

  /** The first loop of `setup_run_queues`: each stage reads the queue the previous one completes into. */
  method ChainStageQueues(prefix: string, stageCount: nat) returns (names: seq<StageQueueNames>)
    ensures |names| == stageCount
    ensures forall i :: 0 <= i < stageCount ==> names[i] == StageQueues(prefix, i)
  {
    hide StageQueues, BuildStageQueueNames, BaseQueue, Decimal;
    names := [];
    var previousCompleted: Option<string> := None;
    for index := 0 to stageCount
      invariant |names| == index
      invariant forall i :: 0 <= i < index ==> names[i] == StageQueues(prefix, i)
      invariant index > 0 ==> previousCompleted == Some(BaseQueue(prefix, index))
    {
      StageQueuesBuilt(prefix, index, previousCompleted);
      var queues := BuildStageQueueNames(
        prefix + ".s" + Decimal(index + 1), if index == 0 then None else previousCompleted);
      names := names + [queues];
      previousCompleted := Some(queues.completedName);
    }
  }

  /** `queue_prefix or f"run.{run_id}"`. */
  function RunPrefix(runId: string, queuePrefix: Option<string>): string {
    if queuePrefix.Some? && queuePrefix.value != [] then queuePrefix.value else "run." + runId
  }

  function WorkersFor(workersByStage: map<string, int>, name: string): int {
    if name in workersByStage then workersByStage[name] else 10
  }

  /** The second loop: one stage manifest per step, with the queues chained for its index. */
  method BuildStages(steps: seq<PipelineStep>, names: seq<StageQueueNames>, workersByStage: map<string, int>) returns (stages: seq<Stage>)
    requires |names| == |steps|
    ensures |stages| == |steps|
    ensures forall i :: 0 <= i < |steps| ==>
              stages[i] == Stage(steps[i].name, i, steps[i].handlerKey, names[i].pendingName, names[i].completedName,
                                 WorkersFor(workersByStage, steps[i].name), map[])
  {
    stages := [];
    for index := 0 to |steps|
      invariant |stages| == index
      invariant forall i :: 0 <= i < index ==>
                  stages[i] == Stage(steps[i].name, i, steps[i].handlerKey, names[i].pendingName, names[i].completedName,
                                     WorkersFor(workersByStage, steps[i].name), map[])
    {
      stages := stages + [Stage(
        steps[index].name, index, steps[index].handlerKey, names[index].pendingName, names[index].completedName,
        WorkersFor(workersByStage, steps[index].name), map[])];
    }
  }

  /** `setup_run_queues` up to the manifest it stores, and the queues it declares. */
  method SetupRunQueues(runId: string, pipelineId: string, steps: seq<PipelineStep>, workersByStage: map<string, int>, queuePrefix: Option<string>)
    returns (m: RunManifest, declared: set<string>)
    ensures m.runId == runId && m.pipelineId == pipelineId && m.queuePrefix == RunPrefix(runId, queuePrefix)
    ensures |m.stages| == |steps|
    ensures forall i :: 0 <= i < |steps| ==>
              && m.stages[i].name == steps[i].name
              && m.stages[i].handlerKey == steps[i].handlerKey
              && m.stages[i].defaultWorkers == (if steps[i].name in workersByStage then workersByStage[steps[i].name] else 10)
              && m.stages[i].inputQueue == m.queuePrefix + (if i == 0 then ".s1.pending" else ".s" + Decimal(i) + ".completed")
              && m.stages[i].outputQueue == m.queuePrefix + (".s" + Decimal(i + 1) + ".completed")
    ensures m.queuePrefix == if queuePrefix.Some? && queuePrefix.value != [] then queuePrefix.value else "run." + runId
    ensures steps != [] ==> m.WellFormed()
    ensures declared == m.PartitionQueueSet(DEFAULT_PARTITION_KEY)
  {
    var prefix := RunPrefix(runId, queuePrefix);
    var names := ChainStageQueues(prefix, |steps|);
    declared := (set i | 0 <= i < |names| :: names[i].pendingName) + (set i | 0 <= i < |names| :: names[i].completedName);
    var stages := BuildStages(steps, names, workersByStage);
    m := RunManifest(runId, pipelineId, prefix, stages);
    SetupDeclares(m, names);
    forall k: nat ensures BaseQueue(prefix, k) == prefix + (if k == 0 then ".s1.pending" else ".s" + Decimal(k) + ".completed") {
      BaseQueueSpelled(prefix, k);
    }
    if steps != [] {
      SetupIsWellFormed(m, names);
    }
  }

  lemma SetupIsWellFormed(m: RunManifest, names: seq<StageQueueNames>)
    requires m.stages != [] && |names| == |m.stages|
    requires forall i :: 0 <= i < |names| ==>
               && names[i] == StageQueues(m.queuePrefix, i)
               && m.stages[i].stepIndex == i && m.stages[i].partitionQueues == map[]
               && m.stages[i].inputQueue == names[i].pendingName && m.stages[i].outputQueue == names[i].completedName
    ensures m.WellFormed()
  {
  }

  lemma SetupDeclares(m: RunManifest, names: seq<StageQueueNames>)
    requires |names| == |m.stages|
    requires forall i :: 0 <= i < |names| ==>
               m.stages[i].inputQueue == names[i].pendingName && m.stages[i].outputQueue == names[i].completedName
    ensures (set i | 0 <= i < |names| :: names[i].pendingName) + (set i | 0 <= i < |names| :: names[i].completedName)
            == m.PartitionQueueSet(DEFAULT_PARTITION_KEY)
  {
    var s := m.stages;
    assert (set i | 0 <= i < |names| :: names[i].pendingName)
        == (set i | 0 <= i < |s| :: s[i].InputQueueForPartition(DEFAULT_PARTITION_KEY)) by {
      assert forall i :: 0 <= i < |s| ==> names[i].pendingName == s[i].InputQueueForPartition(DEFAULT_PARTITION_KEY);
    }
    assert (set i | 0 <= i < |names| :: names[i].completedName)
        == (set i | 0 <= i < |s| :: s[i].OutputQueueForPartition(DEFAULT_PARTITION_KEY)) by {
      assert forall i :: 0 <= i < |s| ==> names[i].completedName == s[i].OutputQueueForPartition(DEFAULT_PARTITION_KEY);
    }
  }

  /** Two stages with one name: the later one's input is looked up as that of the first stage so named, a different queue. */
  lemma DuplicateNamesBreakRouting(m: RunManifest, i: nat, k: nat, key: string)
    requires m.WellFormed() && i < k < |m.stages| && m.stages[i].name == m.stages[k].name
    requires forall j :: 0 <= j < i ==> m.stages[j].name != m.stages[k].name
    ensures m.StageInputQueue(m.stages[k].name, key) == Some(m.QueueAt(i, key))
    ensures m.StageInputQueue(m.stages[k].name, key) != Some(m.QueueAt(k, key))
  {
    m.FirstStageFinds(i, 0);
    m.QueueNamesInjective(i, key, k, key);
  }

  // ---------------------------------------------------------------- two runs

  /** A queue name in full. */
  lemma QueueNameSpelled(m: RunManifest, k: nat, key: string)
    requires m.WellFormed() && k <= |m.stages|
    ensures m.QueueAt(k, key)
            == m.queuePrefix + (if k == 0 then ".s1.pending" else ".s" + Decimal(k) + ".completed")
               + (if key == "default" then "" else ".partition." + Sanitize(key))
  {
    m.QueueAtName(k, key);
    BaseQueueSpelled(m.queuePrefix, k);
  }

  ghost predicate DefaultPrefix(m: RunManifest) {
    m.queuePrefix == "run." + m.runId
  }

  lemma NameAfterRun(m: RunManifest, k: nat, key: string) returns (rest: string)
    requires m.WellFormed() && DefaultPrefix(m) && k <= |m.stages|
    ensures rest != [] && rest[0] == '.' && m.QueueAt(k, key) == "run." + (m.runId + rest)
  {
    QueueNameSpelled(m, k, key);
    var base := if k == 0 then ".s1.pending" else ".s" + Decimal(k) + ".completed";
    var suffix := if key == "default" then "" else ".partition." + Sanitize(key);
    rest := base + suffix;
    Regroup("run." + m.runId, base, suffix);
    Regroup("run.", m.runId, base + suffix);
    assert base[0] == '.';
  }

  /** Two runs whose ids have no "." share a queue only if they are one run, at one position, with keys that sanitize alike. */
  lemma RunsShareNoQueue(m: RunManifest, other: RunManifest, i: nat, p: string, j: nat, q: string)
    requires m.WellFormed() && other.WellFormed() && DefaultPrefix(m) && DefaultPrefix(other) && '.' !in m.runId && '.' !in other.runId
    requires i <= |m.stages| && j <= |other.stages|
    ensures m.QueueAt(i, p) == other.QueueAt(j, q) <==> m.runId == other.runId && i == j && SameKey(p, q)
  {
    m.QueueAtName(i, p);
    other.QueueAtName(j, q);
    if m.QueueAt(i, p) == other.QueueAt(j, q) {
      var x := NameAfterRun(m, i, p);
      var y := NameAfterRun(other, j, q);
      SplitAt("run.", m.runId + x);
      SplitAt("run.", other.runId + y);
      FirstDot(m.runId, x, other.runId, y);
      BaseQueueDecodes(m.queuePrefix, i, KeySuffix(p), j, KeySuffix(q));
    }
    KeySuffixDecodes(p, q);
  }

  /** With a "." in a run id two runs can share a queue: a partition of one is named like the first queue of the other. */
  lemma DottedRunsCollide(m: RunManifest, other: RunManifest, x: string)
    requires m.WellFormed() && other.WellFormed() && DefaultPrefix(m) && DefaultPrefix(other) && Clean(x + ".s1.pending")
    requires other.runId == m.runId + (".s1.pending" + (".partition." + x))
    ensures m.runId != other.runId && m.QueueAt(0, x + ".s1.pending") == other.QueueAt(0, "default")
  {
    var key := x + ".s1.pending";
    assert key[|key| - 1] == 'g' && "default"[6] == 't';
    QueueNameSpelled(m, 0, key);
    QueueNameSpelled(other, 0, "default");
    SanitizeFixedPoints(key);
    Nested("run.", m.runId, ".s1.pending", ".partition.", x);
  }

  lemma Nested<T>(u: seq<T>, r: seq<T>, b: seq<T>, t: seq<T>, x: seq<T>)
    ensures u + r + b + (t + (x + b)) == u + (r + (b + (t + x))) + b + []
  {
  }
}
