/**
 The WorkerManager as a state machine: every critical section and every dequeued event is one step.
 Entries live in `heap`, one per incarnation of a worker; `entries` maps a worker ID to its current
 incarnation, and queued events keep the incarnation their hook was bound to.
 */
module ManagerModel {
  import opened Timeouts

  datatype WorkerID = WorkerID(name: string)

  datatype ExecutorID = ExecutorID(name: string)

  datatype StatusCode =
    | StatusNormal | StatusCreated | StatusInit | StatusError | StatusFinished | StatusStopped

  datatype WorkerStatus = WorkerStatus(code: StatusCode, message: string)

  datatype EntryState = Wait | Created | Normal | Offline | Tombstone

  datatype Entry = Entry(
    id: WorkerID, executor: ExecutorID, expireAt: Time, state: EntryState, finished: bool, status: WorkerStatus)

  /** Why an offline callback says the worker is gone. */
  datatype OfflineReason = WorkerFinish | WorkerStop | WorkerOffline

  datatype Event =
    | OnlineEvent(id: WorkerID, ref: nat, executor: ExecutorID)
    | OfflineEvent(id: WorkerID, ref: nat, reason: OfflineReason)
    | StatusEvent(id: WorkerID, ref: nat, executor: ExecutorID, status: WorkerStatus)
    | DispatchFailedEvent(id: WorkerID)

  /** A callback made for an incarnation. */
  datatype Callback = OnlineCall | StatusCall | OfflineCall

  /** The callbacks made so far, latest outermost. */
  datatype Log = NoCalls | Called(before: Log, ref: nat, callback: Callback)

  datatype Phase = LoadingMeta | WaitingHeartbeat | Ready

  datatype Panic =
    | StaleMaster         // a message from a larger epoch
    | WorkerAlreadyExists // BeforeStartingWorker on an ID that has an entry
    | UnreachableMark     // a MarkAs method in a state that does not allow it
    | NotATombstone       // removing an entry that is not a tombstone
    | ClosedTwice         // allWorkersReady
    | NotLoading          // InitAfterRecover on a manager that is not loading

  const QUEUE_CAPACITY := 1024

  /**
   `events` holds every event ever enqueued, of which those before `next` have been dequeued.
   `log`, `aborted` (incarnations removed by a failed dispatch) and `recovered` (how many were
   loaded from the metastore) record history and influence nothing.
   */
  datatype Manager = Manager(
    epoch: int, timeouts: TimeoutConfig, phase: Phase,
    entries: map<WorkerID, nat>, heap: seq<Entry>,
    events: seq<Event>, next: nat, errored: bool, readyCloses: nat,
    log: Log, aborted: set<nat>, recovered: nat)
  {
    ghost predicate Valid() {
      && next <= |events|
      && (forall id :: id in entries ==> entries[id] < |heap| && heap[entries[id]].id == id)
      && (forall i :: 0 <= i < |events| && !events[i].DispatchFailedEvent? ==>
            events[i].ref < |heap| && heap[events[i].ref].id == events[i].id)
    }
  }

  datatype Outcome = Went(m: Manager) | Panicked(why: Panic)

  /** NewWorkerManager. */
  function NewManager(epoch: int, timeouts: TimeoutConfig, isInit: bool): (m: Manager)
    ensures m.Valid()
  {
    Manager(epoch, timeouts, if isInit then Ready else LoadingMeta,
            map[], [], [], 0, false, 0, NoCalls, {}, 0)
  }

  // ---------------------------------------------------------------- entries

  function NextExpireTime(timeouts: TimeoutConfig, now: Time): Time {
    now + timeouts.workerTimeout + timeouts.graceful
  }

  predicate CanGoOnline(e: Entry) { e.state == Created || e.state == Wait }

  predicate CanGoOffline(e: Entry) { e.state == Created || e.state == Normal }

  predicate CanBeTombstone(e: Entry) { e.state == Wait || e.state == Offline || e.finished }

  function OfflineReasonOf(status: WorkerStatus): OfflineReason {
    match status.code
    case StatusFinished => WorkerFinish
    case StatusStopped => WorkerStop
    case _ => WorkerOffline
  }

  function Put(m: Manager, ref: nat, e: Entry): (m': Manager)
    requires m.Valid() && ref < |m.heap| && e.id == m.heap[ref].id
    ensures m'.Valid()
  {
    m.(heap := m.heap[ref := e])
  }

  /** A new incarnation becomes the entry of its ID. */
  function Bind(m: Manager, e: Entry): (m': Manager)
    requires m.Valid()
    ensures m'.Valid()
  {
    m.(heap := m.heap + [e], entries := m.entries[e.id := |m.heap|])
  }

  function Unbind(m: Manager, id: WorkerID): (m': Manager)
    requires m.Valid()
    ensures m'.Valid()
  {
    m.(entries := m.entries - {id})
  }

  // ---------------------------------------------------------------- the event queue

  /** Waiting for room gives up after a second and records an error. */
  function Enqueue(m: Manager, ev: Event): (m': Manager)
    requires m.Valid()
    requires ev.DispatchFailedEvent? || (ev.ref < |m.heap| && m.heap[ev.ref].id == ev.id)
    ensures m'.Valid()
  {
    if |m.events| - m.next >= QUEUE_CAPACITY then m.(errored := true)
    else m.(events := m.events + [ev])
  }

  function Call(m: Manager, ref: nat, callback: Callback): Manager {
    m.(log := Called(m.log, ref, callback))
  }

  /** removeTombstoneEntry */
  function RemoveTombstone(m: Manager, id: WorkerID): (r: Outcome)
    requires m.Valid()
    ensures r.Went? ==> r.m.Valid()
  {
    if id !in m.entries then Went(m)
    else if m.heap[m.entries[id]].state != Tombstone then Panicked(NotATombstone)
    else Went(Unbind(m, id))
  }

  /** Whether the next event reaches its callback, and what its hook does. */
  function RunHook(m: Manager, ev: Event): (r: Outcome)
    requires m.Valid() && (ev.DispatchFailedEvent? || ev.ref < |m.heap|)
    ensures r.Went? ==> r.m.Valid()
  {
    match ev
    case OnlineEvent(_, ref, _) => Went(Call(m, ref, OnlineCall))
    case StatusEvent(_, ref, _, status) =>
      if m.heap[ref].state == Tombstone then Went(m)
      else Went(Call(Put(m, ref, m.heap[ref].(status := status)), ref, StatusCall))
    case OfflineEvent(_, ref, _) =>
      if !CanBeTombstone(m.heap[ref]) then Panicked(UnreachableMark)
      else Went(Call(Put(m, ref, m.heap[ref].(state := Tombstone)), ref, OfflineCall))
    case DispatchFailedEvent(id) =>
      var gone := if id in m.entries then {m.entries[id]} else {};
      Went(Unbind(m, id).(aborted := m.aborted + gone))
  }

  /** One round of Tick; with `clean` the callback cleans the tombstone handle it was given. */
  function TickOne(m: Manager, clean: bool): (r: Outcome)
    requires m.Valid()
    ensures r.Went? ==> r.m.Valid()
  {
    if m.next == |m.events| then Went(m)
    else
      var ev := m.events[m.next];
      AfterCallback(RunHook(m.(next := m.next + 1), ev), clean, ev)
  }

  /** The clean-up that the callback of an offline or failed worker may do. */
  function AfterCallback(r: Outcome, clean: bool, ev: Event): (r': Outcome)
    requires r.Went? ==> r.m.Valid()
    ensures r'.Went? ==> r'.m.Valid()
  {
    if r.Went? && clean && (ev.OfflineEvent? || ev.DispatchFailedEvent?) then RemoveTombstone(r.m, ev.id) else r
  }

  // ---------------------------------------------------------------- messages

  predicate NoneWaiting(m: Manager)
    requires m.Valid()
  {
    forall id :: id in m.entries ==> m.heap[m.entries[id]].state != Wait
  }

  function Refreshed(m: Manager, e: Entry, finished: bool, now: Time): Entry {
    e.(finished := e.finished || finished, expireAt := NextExpireTime(m.timeouts, now))
  }

  /** HandleHeartbeat */
  function Heartbeat(m: Manager, id: WorkerID, epoch: int, finished: bool, node: ExecutorID, now: Time): (r: Outcome)
    requires m.Valid()
    ensures r.Went? ==> r.m.Valid()
  {
    if m.phase == LoadingMeta then Went(m)
    else if epoch > m.epoch then Panicked(StaleMaster)
    else if epoch < m.epoch || id !in m.entries then Went(m)
    else
      var ref := m.entries[id];
      var e := Refreshed(m, m.heap[ref], finished, now);
      if m.phase == WaitingHeartbeat then
        if e.state != Wait then Went(Put(m, ref, e))
        else Discovered(Put(m, ref, e.(state := Normal, executor := node)))
      else if e.state != Created then Went(Put(m, ref, e))
      else Went(Enqueue(Put(m, ref, e.(state := Normal, executor := node)), OnlineEvent(id, ref, node)))
  }

  /** After a worker is discovered, the signal to resume is given if it was the last one. */
  function Discovered(m: Manager): (r: Outcome)
    requires m.Valid()
    ensures r.Went? ==> r.m.Valid()
  {
    if !NoneWaiting(m) then Went(m)
    else if m.readyCloses > 0 then Panicked(ClosedTwice)
    else Went(m.(readyCloses := m.readyCloses + 1))
  }

  /** OnWorkerStatusUpdateMessage */
  function StatusUpdate(m: Manager, id: WorkerID, epoch: int, status: WorkerStatus): (r: Outcome)
    requires m.Valid()
    ensures r.Went? ==> r.m.Valid()
  {
    if epoch > m.epoch then Panicked(StaleMaster)
    else if epoch < m.epoch || id !in m.entries then Went(m)
    else
      var ref := m.entries[id];
      Went(Enqueue(m, StatusEvent(id, ref, m.heap[ref].executor, status)))
  }

  // ---------------------------------------------------------------- creating workers

  function BeforeStarting(m: Manager, id: WorkerID, executor: ExecutorID, now: Time): (r: Outcome)
    requires m.Valid()
    ensures r.Went? ==> r.m.Valid()
  {
    if id in m.entries then Panicked(WorkerAlreadyExists)
    else
      Went(Bind(m, Entry(id, executor, NextExpireTime(m.timeouts, now), Created, false,
                         WorkerStatus(StatusCreated, ""))))
  }

  function AbortCreating(m: Manager, id: WorkerID): (m': Manager)
    requires m.Valid()
    ensures m'.Valid()
  {
    Enqueue(m, DispatchFailedEvent(id))
  }

  // ---------------------------------------------------------------- the expiry checker

  predicate ShouldGoOffline(e: Entry, now: Time) { e.expireAt < now || e.finished }

  /** One entry of checkWorkerEntriesOnce. */
  function CheckEntry(m: Manager, id: WorkerID, now: Time): (r: Outcome)
    requires m.Valid()
    ensures r.Went? ==> r.m.Valid()
  {
    if m.phase != Ready || id !in m.entries then Went(m)
    else
      var ref := m.entries[id];
      var e := m.heap[ref];
      if e.state == Offline || e.state == Tombstone || !ShouldGoOffline(e, now) then Went(m)
      else if !CanGoOffline(e) then Panicked(UnreachableMark)
      else Went(Enqueue(Put(m, ref, e.(state := Offline)), OfflineEvent(id, ref, OfflineReasonOf(e.status))))
  }

  // ---------------------------------------------------------------- recovery

  /** What the metastore holds of a worker. */
  datatype Persisted = Persisted(id: WorkerID, status: WorkerStatus)

  /** The entries loaded from the metastore; finished workers are skipped. */
  function LoadEntries(m: Manager, workers: seq<Persisted>): (m': Manager)
    requires m.Valid()
    ensures m'.Valid()
  {
    if |workers| == 0 then m
    else
      var loaded := LoadEntries(m, workers[..|workers| - 1]);
      var w := workers[|workers| - 1];
      if w.status.code == StatusFinished then loaded
      else Bind(loaded, Entry(w.id, ExecutorID(""), 0, Wait, false, w.status)).(recovered := loaded.recovered + 1)
  }

  /** InitAfterRecover up to the wait for heartbeats. */
  function LoadPersisted(m: Manager, workers: seq<Persisted>): (r: Outcome)
    requires m.Valid()
    ensures r.Went? ==> r.m.Valid()
  {
    if m.phase != LoadingMeta then Panicked(NotLoading)
    else
      var loaded := LoadEntries(m, workers);
      Went(loaded.(phase := if |loaded.entries| == 0 then Ready else WaitingHeartbeat))
  }

  function Swept(e: Entry): Entry {
    if e.state == Wait || e.finished then e.(state := Tombstone) else e
  }

  /** The final sweep of InitAfterRecover over the mapped entries. */
  function FinishRecover(m: Manager): (m': Manager)
    requires m.Valid()
    ensures m'.Valid()
  {
    m.(phase := Ready,
       heap := seq(|m.heap|, r requires 0 <= r < |m.heap| =>
         if IsMapped(m, r) then Swept(m.heap[r]) else m.heap[r]))
  }

  predicate IsMapped(m: Manager, ref: nat)
    requires ref < |m.heap|
  {
    m.heap[ref].id in m.entries && m.entries[m.heap[ref].id] == ref
  }

  // ---------------------------------------------------------------- steps and runs

  datatype Step =
    | HeartbeatStep(id: WorkerID, epoch: int, finished: bool, node: ExecutorID, now: Time)
    | StatusStep(id: WorkerID, epoch: int, status: WorkerStatus)
    | TickStep(clean: bool)
    | StartStep(id: WorkerID, executor: ExecutorID, now: Time)
    | AbortStep(id: WorkerID)
    | CheckStep(id: WorkerID, now: Time)
    | LoadStep(workers: seq<Persisted>)
    | SweepStep
    | RemoveStep(id: WorkerID)

  function Apply(m: Manager, s: Step): (r: Outcome)
    requires m.Valid()
    ensures r.Went? ==> r.m.Valid()
  {
    match s
    case HeartbeatStep(id, epoch, finished, node, now) => Heartbeat(m, id, epoch, finished, node, now)
    case StatusStep(id, epoch, status) => StatusUpdate(m, id, epoch, status)
    case TickStep(clean) => TickOne(m, clean)
    case StartStep(id, executor, now) => BeforeStarting(m, id, executor, now)
    case AbortStep(id) => Went(AbortCreating(m, id))
    case CheckStep(id, now) => CheckEntry(m, id, now)
    case LoadStep(workers) => LoadPersisted(m, workers)
    case SweepStep => Went(FinishRecover(m))
    case RemoveStep(id) => RemoveTombstone(m, id)
  }
}
