/**
 The job manager on top of its WorkerManager: jobs are created, dispatched by goroutines of
 CreateWorker, announced online or offline by callbacks, and dispatched again under the same ID.
 The run starts with an empty cluster.
 */
module JobWorkers {
  import opened Timeouts
  import opened ManagerModel
  import opened ManagerInvariant
  import opened JobStates

  /**
   A goroutine started by CreateWorker: before BeforeStartingWorker, waiting for the outcome of the
   confirmation since then, returned without a failure (the confirmation may still be under way), or
   done.
   */
  datatype Stage = Scheduling | Confirming(ref: nat, at: Time) | Returned(ref: nat) | Over

  datatype Dispatch = Dispatch(id: WorkerID, stage: Stage)

  /** A poll of the master delivers all queued events before it lets the job manager tick. */
  datatype Mode = Draining | Ticking

  /**
   `running` are the incarnations whose task the executor has accepted, `failed` those it has
   refused for good.
   */
  datatype Cluster = Cluster(
    m: Manager, jobs: Jobs, now: Time, mode: Mode, dispatches: seq<Dispatch>,
    known: set<WorkerID>, running: set<nat>, failed: set<nat>)

  datatype Action =
    | Pass(until: Time)
    | SubmitJob(id: WorkerID, meta: JobMeta)
    | Redispatch(id: WorkerID)
    | Drained
    | TickOver
    | Deliver
    | EarlyAbort(k: nat)
    | PrepareFails(k: nat)
    | Start(k: nat, executor: ExecutorID)
    | WorkerRuns(k: nat)
    | ConfirmFails(k: nat)
    | ConfirmReturns(k: nat)
    | Ping(id: WorkerID, finished: bool, node: ExecutorID)
    | StatusMessage(id: WorkerID, status: WorkerStatus)
    | Check(id: WorkerID)

  datatype Effect = Fine(c: Cluster) | ManagerPanic(why: Panic) | WorkerNotFound

  predicate StageIs(c: Cluster, k: nat, confirming: bool) {
    k < |c.dispatches| && if confirming then c.dispatches[k].stage.Confirming? else c.dispatches[k].stage.Scheduling?
  }

  /** The executor has neither accepted nor refused the incarnation. */
  predicate Undecided(c: Cluster, ref: nat) { ref !in c.running && ref !in c.failed }

  /** Somebody of this ID has run and may have sent a ping, however long ago. */
  predicate HasSender(c: Cluster, id: WorkerID) {
    exists ref :: ref in c.running && ref < |c.m.heap| && c.m.heap[ref].id == id
  }

  /** When an action can happen, whatever the delays. */
  predicate Possible(c: Cluster, a: Action) {
    match a
    case Pass(until) => c.now <= until
    case SubmitJob(id, _) => id !in c.known
    case Redispatch(id) => c.mode == Ticking && id in c.jobs.pending
    case Drained => c.m.next == |c.m.events|
    case TickOver => true
    case Deliver => c.mode == Draining
    case EarlyAbort(k) => StageIs(c, k, false)
    case PrepareFails(k) => StageIs(c, k, false)
    case Start(k, _) => StageIs(c, k, false)
    case WorkerRuns(k) =>
      && k < |c.dispatches| && (c.dispatches[k].stage.Confirming? || c.dispatches[k].stage.Returned?)
      && Undecided(c, c.dispatches[k].stage.ref)
    case ConfirmFails(k) => StageIs(c, k, true) && Undecided(c, c.dispatches[k].stage.ref)
    case ConfirmReturns(k) => StageIs(c, k, true)
    case Ping(id, _, _) => HasSender(c, id)
    case StatusMessage(_, _) => true
    case Check(_) => true
  }

  /** The entry of an ID is still as BeforeStartingWorker left it, as far as its state goes. */
  predicate StillCreated(c: Cluster, ref: nat) { ref < |c.m.heap| && c.m.heap[ref].state == Created }

  /**
   A dispatch failure does no harm if its entry is still Created. A ping does none unless it brings
   online an entry whose failure is queued.
   */
  predicate Harmless(c: Cluster, a: Action) {
    match a
    case ConfirmFails(k) => StageIs(c, k, true) ==> StillCreated(c, c.dispatches[k].stage.ref)
    case Ping(id, _, _) =>
      !(id in c.m.entries && c.m.entries[id] in c.failed && StillCreated(c, c.m.entries[id]))
    case _ => true
  }

  function MoveTo(c: Cluster, k: nat, stage: Stage): Cluster
    requires k < |c.dispatches|
  {
    c.(dispatches := c.dispatches[k := c.dispatches[k].(stage := stage)])
  }

  function WithManager(c: Cluster, r: Outcome): Effect {
    if r.Panicked? then ManagerPanic(r.why) else Fine(c.(m := r.m))
  }

  /** What a delivery leaves of the manager and the jobs. */
  datatype Delivery = Both(m: Manager, jobs: Jobs) | Crash(why: Panic) | NotFound

  function WithJobs(r: Outcome, jobs: Jobs): Delivery {
    if r.Panicked? then Crash(r.why) else Both(r.m, jobs)
  }

  /** The next event, its hook and the callback of the job manager. */
  function DeliverNext(m: Manager, jobs: Jobs): (d: Delivery)
    requires m.Valid() && m.next < |m.events|
    ensures d.Both? ==> d.m.Valid() && d.m.next == m.next + 1 && d.m.events == m.events
  {
    match m.events[m.next]
    case OnlineEvent(id, _, _) =>
      if id !in jobs.waitAck then NotFound else WithJobs(TickOne(m, false), JobOnline(jobs, id))
    case StatusEvent(_, _, _, _) => WithJobs(TickOne(m, false), jobs)
    case OfflineEvent(id, _, reason) => WithJobs(TickOne(m, true), JobOffline(jobs, id, reason == WorkerOffline))
    case DispatchFailedEvent(id) =>
      if id !in jobs.waitAck then NotFound else WithJobs(TickOne(m, false), JobDispatchFailed(jobs, id))
  }

  function Delivered(c: Cluster): Effect
    requires c.m.Valid() && c.m.next < |c.m.events|
  {
    match DeliverNext(c.m, c.jobs)
    case Both(m, jobs) => Fine(c.(m := m, jobs := jobs))
    case Crash(why) => ManagerPanic(why)
    case NotFound => WorkerNotFound
  }

  function Do(c: Cluster, a: Action): Effect
    requires c.m.Valid() && Possible(c, a)
  {
    match a
    case Pass(until) => Fine(c.(now := until))
    case SubmitJob(id, meta) =>
      Fine(c.(known := c.known + {id}, jobs := JobDispatched(c.jobs, id, meta, false),
              dispatches := c.dispatches + [Dispatch(id, Scheduling)]))
    case Redispatch(id) =>
      Fine(c.(jobs := Redispatched(c.jobs, id), dispatches := c.dispatches + [Dispatch(id, Scheduling)]))
    case Drained => Fine(c.(mode := Ticking))
    case TickOver => Fine(c.(mode := Draining))
    case Deliver => if c.m.next == |c.m.events| then Fine(c) else Delivered(c)
    case EarlyAbort(k) => Fine(MoveTo(c, k, Over).(m := AbortCreating(c.m, c.dispatches[k].id)))
    case PrepareFails(k) => Fine(MoveTo(c, k, Over))
    case Start(k, executor) =>
      WithManager(MoveTo(c, k, Confirming(|c.m.heap|, c.now)), BeforeStarting(c.m, c.dispatches[k].id, executor, c.now))
    case WorkerRuns(k) => Fine(c.(running := c.running + {c.dispatches[k].stage.ref}))
    case ConfirmFails(k) =>
      Fine(MoveTo(c, k, Over).(failed := c.failed + {c.dispatches[k].stage.ref},
                               m := AbortCreating(c.m, c.dispatches[k].id)))
    case ConfirmReturns(k) => Fine(MoveTo(c, k, Returned(c.dispatches[k].stage.ref)))
    case Ping(id, finished, node) => WithManager(c, Heartbeat(c.m, id, c.m.epoch, finished, node, c.now))
    case StatusMessage(id, status) => WithManager(c, StatusUpdate(c.m, id, c.m.epoch, status))
    case Check(id) => WithManager(c, CheckEntry(c.m, id, c.now))
  }

  // ---------------------------------------------------------------- the invariant

  predicate OnlineOf(ev: Event, ref: nat) { ev.OnlineEvent? && ev.ref == ref }

  predicate OfflineOf(ev: Event, ref: nat) { ev.OfflineEvent? && ev.ref == ref }

  ghost predicate OnlineQueued(m: Manager, ref: nat) {
    exists i :: m.next <= i < |m.events| && OnlineOf(m.events[i], ref)
  }

  ghost predicate FailureQueued(m: Manager, id: WorkerID) {
    exists i :: m.next <= i < |m.events| && m.events[i] == DispatchFailedEvent(id)
  }

  /** A worker entry belongs to a job that waits for its master or has it online. */
  ghost predicate IdOk(c: Cluster, id: WorkerID)
    requires c.m.Valid()
  {
    && (id in c.m.entries ==>
          var e := c.m.heap[c.m.entries[id]];
          && (id in c.jobs.waitAck || id in c.jobs.online) && e.state in {Created, Normal, Offline}
          && (id in c.jobs.waitAck && e.state == Normal ==> OnlineQueued(c.m, c.m.entries[id]))
          && (c.m.entries[id] in c.failed ==> FailureQueued(c.m, id)))
    && (id in c.jobs.online ==>
          id in c.m.entries && c.m.heap[c.m.entries[id]].state in {Normal, Offline})
    && (id in All(c.jobs) ==> id in c.known)
  }

  /** A scheduling goroutine is the only one of its job, which has no entry and no failure queued. */
  ghost predicate SchedulingOk(c: Cluster, k: nat)
    requires k < |c.dispatches|
  {
    var d := c.dispatches[k];
    d.stage.Scheduling? ==>
      && d.id in c.jobs.waitAck && d.id !in c.m.entries
      && (forall k' :: 0 <= k' < |c.dispatches| && k' != k ==> c.dispatches[k'] != d)
      && (forall i :: c.m.next <= i < |c.m.events| ==> c.m.events[i] != DispatchFailedEvent(d.id))
  }

  /** A goroutine waiting for its confirmation knows the entry it has started. */
  ghost predicate ConfirmingOk(c: Cluster, k: nat)
    requires c.m.Valid() && k < |c.dispatches|
  {
    var d := c.dispatches[k];
    && (d.stage.Confirming? ==> d.stage.ref < |c.m.heap| && c.m.heap[d.stage.ref].id == d.id)
    && (d.stage.Returned? ==> d.stage.ref < |c.m.heap|)
  }

  /** What a queued event says of its job. */
  ghost predicate QueuedOk(c: Cluster, i: nat)
    requires c.m.Valid() && i < |c.m.events|
  {
    match c.m.events[i]
    case OnlineEvent(id, ref, _) => IsMapped(c.m, ref) && id in c.jobs.waitAck && ref !in c.failed
    case OfflineEvent(id, ref, _) => IsMapped(c.m, ref) || (id in c.jobs.pending && c.mode == Draining)
    case DispatchFailedEvent(id) =>
      && id in c.jobs.waitAck
      && (forall j :: c.m.next <= j < |c.m.events| && j != i ==> c.m.events[j] != DispatchFailedEvent(id))
      && (id in c.m.entries ==>
            && c.m.entries[id] in c.failed
            && (forall j :: c.m.next <= j < i ==> !OfflineOf(c.m.events[j], c.m.entries[id])))
    case StatusEvent(_, _, _, _) => true
  }

  ghost predicate ClusterInv(c: Cluster) {
    && Inv(c.m) && c.m.phase == Ready && !c.m.errored && Partition(c.jobs)
    && c.running !! c.failed && c.m.aborted <= c.failed
    && (forall ref :: ref in c.running || ref in c.failed ==> ref < |c.m.heap|)
    && (forall id :: IdOk(c, id))
    && (forall k: nat :: k < |c.dispatches| ==> SchedulingOk(c, k) && ConfirmingOk(c, k))
    && (forall i: nat :: c.m.next <= i < |c.m.events| ==> QueuedOk(c, i))
  }
}
