/** The job manager's bookkeeping: every running job is pending, waiting for its master's first heartbeat, or online. */
module JobStates {
  import opened ManagerModel

  /** What the metastore holds of a job, apart from its ID. */
  datatype JobMeta = JobMeta(project: string, config: string)

  datatype Holder = Holder(meta: JobMeta, failover: bool)

  /** `failedOver` records the jobs that IterWaitAckJobs has dispatched again. */
  datatype Jobs = Jobs(
    pending: map<WorkerID, JobMeta>, waitAck: map<WorkerID, Holder>, online: map<WorkerID, Holder>,
    failedOver: set<WorkerID>)

  const NO_JOBS := Jobs(map[], map[], map[], {})

  predicate Partition(s: Jobs) {
    s.pending.Keys !! s.waitAck.Keys && s.pending.Keys !! s.online.Keys && s.waitAck.Keys !! s.online.Keys
  }

  function All(s: Jobs): set<WorkerID> { s.pending.Keys + s.waitAck.Keys + s.online.Keys }

  function MetaOf(s: Jobs, id: WorkerID): JobMeta
    requires id in All(s)
  {
    if id in s.pending then s.pending[id] else if id in s.waitAck then s.waitAck[id].meta else s.online[id].meta
  }

  // ---------------------------------------------------------------- transitions

  function JobDispatched(s: Jobs, id: WorkerID, meta: JobMeta, failover: bool): Jobs {
    s.(waitAck := s.waitAck[id := Holder(meta, failover)])
  }

  /** One round of IterPendingJobs whose dispatch succeeds and gives the job its own ID. */
  function Redispatched(s: Jobs, id: WorkerID): Jobs
    requires id in s.pending
  {
    s.(pending := s.pending - {id}, waitAck := s.waitAck[id := Holder(s.pending[id], false)])
  }

  /** One round of IterWaitAckJobs whose dispatch succeeds. */
  function FailedOver(s: Jobs, id: WorkerID): Jobs
    requires id in s.waitAck
  {
    s.(waitAck := s.waitAck[id := s.waitAck[id].(failover := false)], failedOver := s.failedOver + {id})
  }

  /** Without a waiting job this is ErrWorkerNotFound, and nothing changes. */
  function JobOnline(s: Jobs, id: WorkerID): Jobs {
    if id !in s.waitAck then s
    else s.(online := s.online[id := Holder(s.waitAck[id].meta, false)], waitAck := s.waitAck - {id})
  }

  function JobOffline(s: Jobs, id: WorkerID, needFailover: bool): Jobs {
    if id !in s.online && id !in s.waitAck then s
    else
      var job := if id in s.online then s.online[id] else s.waitAck[id];
      var rest := if id in s.online then s.(online := s.online - {id}) else s.(waitAck := s.waitAck - {id});
      if needFailover then rest.(pending := rest.pending[id := job.meta]) else rest
  }

  /** Without a waiting job this is ErrWorkerNotFound, and nothing changes. */
  function JobDispatchFailed(s: Jobs, id: WorkerID): Jobs {
    if id !in s.waitAck then s
    else s.(pending := s.pending[id := s.waitAck[id].meta], waitAck := s.waitAck - {id})
  }

  datatype Step =
    | DispatchedStep(id: WorkerID, meta: JobMeta, failover: bool)
    | RedispatchStep(id: WorkerID)
    | FailOverStep(id: WorkerID)
    | OnlineStep(id: WorkerID)
    | OfflineStep(id: WorkerID, needFailover: bool)
    | DispatchFailedStep(id: WorkerID)

  predicate Enabled(s: Jobs, step: Step) {
    match step
    case RedispatchStep(id) => id in s.pending
    case FailOverStep(id) => id in s.waitAck && s.waitAck[id].failover
    case _ => true
  }

  function Apply(s: Jobs, step: Step): Jobs
    requires Enabled(s, step)
  {
    match step
    case DispatchedStep(id, meta, failover) => JobDispatched(s, id, meta, failover)
    case RedispatchStep(id) => Redispatched(s, id)
    case FailOverStep(id) => FailedOver(s, id)
    case OnlineStep(id) => JobOnline(s, id)
    case OfflineStep(id, needFailover) => JobOffline(s, id, needFailover)
    case DispatchFailedStep(id) => JobDispatchFailed(s, id)
  }

  // ---------------------------------------------------------------- partition and conservation

  /** Only submitting a job that is already pending or online puts it into two places. */
  lemma PartitionKept(s: Jobs, step: Step)
    requires Partition(s) && Enabled(s, step)
    ensures Partition(Apply(s, step))
       <==> !(step.DispatchedStep? && (step.id in s.pending || step.id in s.online))
  {}

  /** Whether the step ends a job: it goes offline, and not to come back. */
  predicate Ends(s: Jobs, step: Step, id: WorkerID) {
    step.OfflineStep? && step.id == id && !step.needFailover && (id in s.online || id in s.waitAck)
  }

  /** Jobs come by JobDispatched and go by JobOffline without failover, and nothing else changes them. */
  lemma JobsConserved(s: Jobs, step: Step, id: WorkerID)
    requires Partition(s) && Enabled(s, step)
    requires step.DispatchedStep? ==> step.id !in All(s)
    ensures id in All(Apply(s, step))
       <==> (id in All(s) && !Ends(s, step, id)) || (step.DispatchedStep? && step.id == id)
    ensures id in All(s) && id in All(Apply(s, step)) ==> MetaOf(Apply(s, step), id) == MetaOf(s, id)
  {}

  /** A run of the job manager; job IDs are drawn afresh. */
  datatype Run = NoSteps | Then(before: Run, step: Step, jobs: Jobs, known: set<WorkerID>)

  function Last(run: Run): Jobs {
    if run.NoSteps? then NO_JOBS else run.jobs
  }

  function Known(run: Run): set<WorkerID> {
    if run.NoSteps? then {} else run.known
  }

  predicate IsRun(run: Run) {
    match run
    case NoSteps => true
    case Then(before, step, jobs, known) =>
      && IsRun(before) && Enabled(Last(before), step) && jobs == Apply(Last(before), step)
      && (step.DispatchedStep? ==> step.id !in Known(before))
      && known == Known(before) + (if step.DispatchedStep? then {step.id} else {})
  }

  /** How often IterWaitAckJobs has dispatched a job again. */
  function FailOvers(run: Run, id: WorkerID): nat {
    match run
    case NoSteps => 0
    case Then(before, step, _, _) => FailOvers(before, id) + if step == FailOverStep(id) then 1 else 0
  }

  /** Whether a job was dispatched with the failover flag, and whether it has been dispatched again. */
  predicate Flagged(run: Run, id: WorkerID) {
    run.Then? && ((run.step.DispatchedStep? && run.step.id == id && run.step.failover) || Flagged(run.before, id))
  }

  predicate Again(run: Run, id: WorkerID) {
    run.Then? && (run.step == RedispatchStep(id) || run.step == FailOverStep(id) || Again(run.before, id))
  }

  lemma {:induction false} SeenIsKnown(run: Run, id: WorkerID)
    requires IsRun(run)
    ensures Flagged(run, id) || Again(run, id) || id in All(Last(run)) ==> id in Known(run)
    decreases run
  {
    if run.Then? {
      SeenIsKnown(run.before, id);
      if run.step.DispatchedStep? { assert All(Last(run)) <= All(Last(run.before)) + {run.step.id}; }
    }
  }

  /** The steps that leave a waiting job as it is, or take it away. */
  lemma MarkKept(s: Jobs, step: Step, id: WorkerID)
    requires Enabled(s, step) && step != RedispatchStep(id) && step != FailOverStep(id)
    requires !(step.DispatchedStep? && step.id == id)
    ensures id in Apply(s, step).waitAck ==> id in s.waitAck && Apply(s, step).waitAck[id] == s.waitAck[id]
  {}

  /**
   In every run a waiting job is marked for IterWaitAckJobs iff it was dispatched with the flag and has
   not been dispatched again since.
   */
  lemma {:induction false} MarkedIff(run: Run, id: WorkerID)
    requires IsRun(run)
    ensures id in Last(run).waitAck ==> (Last(run).waitAck[id].failover <==> Flagged(run, id) && !Again(run, id))
    decreases run
  {
    if run.Then? {
      MarkedIff(run.before, id);
      if run.step.DispatchedStep? && run.step.id == id {
        SeenIsKnown(run.before, id);
      } else if run.step != RedispatchStep(id) && run.step != FailOverStep(id) {
        MarkKept(Last(run.before), run.step, id);
      }
    }
  }

  predicate RunInv(run: Run) {
    var s := Last(run);
    && Partition(s) && All(s) <= Known(run) && s.failedOver <= Known(run)
    && (forall id :: id in s.waitAck && s.waitAck[id].failover ==> id !in s.failedOver)
  }

  lemma {:induction false} RunKeeps(run: Run)
    requires IsRun(run)
    ensures RunInv(run)
    decreases run
  {
    if run.Then? {
      RunKeeps(run.before);
      PartitionKept(Last(run.before), run.step);
    }
  }

  /** In every run each job is in exactly one place. */
  lemma {:induction false} JobsPartitioned(run: Run, id: WorkerID)
    requires IsRun(run)
    ensures var s := Last(run);
      && !(id in s.pending && id in s.waitAck) && !(id in s.pending && id in s.online)
      && !(id in s.waitAck && id in s.online)
  {
    RunKeeps(run);
  }

  /** In every run each job is failed over at most once. */
  lemma {:induction false} FailedOverOnce(run: Run, id: WorkerID)
    requires IsRun(run)
    ensures FailOvers(run, id) == if id in Last(run).failedOver then 1 else 0
    decreases run
  {
    if run.Then? {
      FailedOverOnce(run.before, id);
      RunKeeps(run.before);
    }
  }
}
