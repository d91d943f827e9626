/** The job envelope and the step handler wrapper (pipeline/job.py, workflow/pipeline.py). */
module Jobs {
  import opened Targeting

  /** JSON content the runtime only carries. */
  type Data = string

  datatype Job = Job(
    runId: string,
    jobId: string,
    lane: string,
    repetition: nat,
    stepIndex: int,
    pipelineId: string,
    targetTags: Tags,
    partitionKey: string,
    payload: Data,
    stepOutputs: map<string, Data>,
    stepRecords: map<string, Data>)
  {
    /** `resolve_partition_key`, as the value the envelope has afterwards. */
    function Resolve(): Job {
      if partitionKey == DEFAULT_PARTITION_KEY then this.(partitionKey := DerivePartitionKey(targetTags)) else this
    }

    ghost predicate Resolved() {
      Resolve() == this
    }

    /** What the runtime needs a handler to leave alone. */
    predicate KeepsIdentity(after: Job) {
      && after.runId == runId && after.jobId == jobId
      && after.targetTags == targetTags && after.partitionKey == partitionKey
    }
  }

  function JobIds(jobs: seq<Job>): seq<string> {
    seq(|jobs|, i requires 0 <= i < |jobs| => jobs[i].jobId)
  }

  /** Resolving at seeding makes every later resolution, at any stage and at replay, a no-op. */
  lemma ResolveIsStable(job: Job, later: Job)
    requires job.Resolve().KeepsIdentity(later)
    ensures job.Resolve().Resolved()
    ensures later.Resolved()
  {
  }

  /** Only the default key is resolved, to the one the tags give; nothing else of the envelope changes. */
  lemma ResolvingSetsTheKey(job: Job)
    ensures job.partitionKey == "default" ==> job.Resolve() == job.(partitionKey := DerivePartitionKey(job.targetTags))
    ensures job.partitionKey != "default" ==> job.Resolve() == job
  {
  }

  /** A handler either returns an envelope or raises; a raising handler may have changed the envelope first. */
  datatype HandlerResult = Returned(job: Job) | Raised(job: Job, detail: string)

  type Handler = Job -> HandlerResult

  /** `make_handler`: stamp the index of the next step on what the step handler returns. */
  function MakeHandler(stepIndex: nat, handler: Handler): Handler {
    (job: Job) =>
      match handler(job)
      case Returned(updated) => Returned(updated.(stepIndex := stepIndex + 1))
      case Raised(left, detail) => Raised(left, detail)
  }

  /** The wrapper changes the index of a returned envelope and nothing else, and lets an exception through. */
  lemma WrapperOnlyStamps(stepIndex: nat, handler: Handler, job: Job)
    ensures var inner, outer := handler(job), MakeHandler(stepIndex, handler)(job);
            && (inner.Raised? ==> outer == inner)
            && (inner.Returned? ==>
                  && outer.Returned? && outer.job.stepIndex == stepIndex + 1
                  && outer.job.(stepIndex := inner.job.stepIndex) == inner.job)
  {
  }
}
