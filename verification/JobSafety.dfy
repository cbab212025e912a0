/** Every action of the job manager's cluster keeps its invariant; no callback fails and nothing panics. */
module JobSafety {
  import opened Timeouts
  import opened ManagerModel
  import opened ManagerInvariant
  import opened JobStates
  import opened JobWorkers

  // ---------------------------------------------------------------- queued events

  /** `m'` has the events of `m` queued, and perhaps more behind them. */
  predicate Extends(m: Manager, m': Manager) {
    && m'.next == m.next && |m.events| <= |m'.events|
    && forall i :: 0 <= i < |m.events| ==> m'.events[i] == m.events[i]
  }

  lemma StillQueued(m: Manager, m': Manager, ref: nat, id: WorkerID)
    requires Extends(m, m')
    ensures OnlineQueued(m, ref) ==> OnlineQueued(m', ref)
    ensures FailureQueued(m, id) ==> FailureQueued(m', id)
  {
    if OnlineQueued(m, ref) {
      var i :| m.next <= i < |m.events| && OnlineOf(m.events[i], ref);
      assert OnlineOf(m'.events[i], ref);
    }
    if FailureQueued(m, id) {
      var i :| m.next <= i < |m.events| && m.events[i] == DispatchFailedEvent(id);
      assert m'.events[i] == DispatchFailedEvent(id);
    }
  }

  /** After the first event is dequeued, the others are still there. */
  lemma QueuedBehind(m: Manager, m': Manager, ref: nat, id: WorkerID)
    requires m.next < |m.events| && m'.next == m.next + 1 && m'.events == m.events
    ensures OnlineQueued(m, ref) && !OnlineOf(m.events[m.next], ref) ==> OnlineQueued(m', ref)
    ensures FailureQueued(m, id) && m.events[m.next] != DispatchFailedEvent(id) ==> FailureQueued(m', id)
  {
    if OnlineQueued(m, ref) && !OnlineOf(m.events[m.next], ref) {
      var i :| m.next <= i < |m.events| && OnlineOf(m.events[i], ref);
      assert OnlineOf(m'.events[i], ref);
    }
    if FailureQueued(m, id) && m.events[m.next] != DispatchFailedEvent(id) {
      var i :| m.next <= i < |m.events| && m.events[i] == DispatchFailedEvent(id);
      assert m'.events[i] == DispatchFailedEvent(id);
    }
  }

  /** Nothing that concerns the job has changed. */
  lemma IdKept(c: Cluster, c': Cluster, id: WorkerID)
    requires c.m.Valid() && c'.m.Valid() && IdOk(c, id) && Extends(c.m, c'.m) && c.known <= c'.known
    requires c'.jobs == c.jobs && c'.m.entries == c.m.entries
    requires id in c.m.entries ==>
      && c'.m.heap[c.m.entries[id]].state == c.m.heap[c.m.entries[id]].state
      && (c.m.entries[id] in c'.failed ==> c.m.entries[id] in c.failed)
    ensures IdOk(c', id)
  {
    if id in c.m.entries { StillQueued(c.m, c'.m, c.m.entries[id], id); }
  }

  // ---------------------------------------------------------------- jobs and goroutines

  /** Actions that touch neither the manager nor the jobs. */
  lemma QuietKeeps(c: Cluster, a: Action)
    requires ClusterInv(c) && Possible(c, a)
    requires a.Pass? || a.Drained? || a.TickOver? || a.WorkerRuns?
    ensures Do(c, a).Fine? && ClusterInv(Do(c, a).c)
  {
    var c' := Do(c, a).c;
    if a.WorkerRuns? { assert ConfirmingOk(c, a.k); }
    forall id ensures IdOk(c', id) {
      assert IdOk(c, id);
      IdKept(c, c', id);
    }
    forall k: nat | k < |c'.dispatches| ensures SchedulingOk(c', k) && ConfirmingOk(c', k) {
      assert SchedulingOk(c, k) && ConfirmingOk(c, k);
    }
    forall i: nat | c'.m.next <= i < |c'.m.events| ensures QueuedOk(c', i) { assert QueuedOk(c, i); }
  }

  /** A goroutine that goes on without a word to the manager. */
  lemma MoveKeeps(c: Cluster, k: nat, stage: JobWorkers.Stage)
    requires ClusterInv(c) && k < |c.dispatches|
    requires stage == Over || (stage.Returned? && stage.ref < |c.m.heap|)
    ensures ClusterInv(MoveTo(c, k, stage))
  {
    var c' := MoveTo(c, k, stage);
    forall id ensures IdOk(c', id) {
      assert IdOk(c, id);
      IdKept(c, c', id);
    }
    forall j: nat | j < |c'.dispatches| ensures SchedulingOk(c', j) && ConfirmingOk(c', j) {
      assert SchedulingOk(c, j) && ConfirmingOk(c, j);
    }
    forall i: nat | c'.m.next <= i < |c'.m.events| ensures QueuedOk(c', i) { assert QueuedOk(c, i); }
  }

  /** A job that does not wait for its master has no goroutine that might still start it. */
  lemma NoneScheduled(c: Cluster, id: WorkerID)
    requires ClusterInv(c) && (id !in c.jobs.waitAck || id in c.m.entries)
    ensures forall k :: 0 <= k < |c.dispatches| ==> c.dispatches[k] != Dispatch(id, Scheduling)
  {
    forall k | 0 <= k < |c.dispatches| ensures c.dispatches[k] != Dispatch(id, Scheduling) {
      assert SchedulingOk(c, k);
    }
  }

  lemma NoneFailing(c: Cluster, id: WorkerID)
    requires ClusterInv(c) && id !in c.jobs.waitAck
    ensures forall i :: c.m.next <= i < |c.m.events| ==> c.m.events[i] != DispatchFailedEvent(id)
  {
    forall i | c.m.next <= i < |c.m.events| ensures c.m.events[i] != DispatchFailedEvent(id) {
      assert QueuedOk(c, i);
    }
  }

  /** A job that is new or pending begins to wait, with a goroutine of its own. */
  lemma WaitKeeps(c: Cluster, id: WorkerID, c': Cluster)
    requires ClusterInv(c) && id !in c.jobs.waitAck && id !in c.jobs.online
    requires id in c.jobs.pending ==> c.mode == Ticking
    requires c' == c.(jobs := c'.jobs, known := c.known + {id}, dispatches := c.dispatches + [Dispatch(id, Scheduling)])
    requires Partition(c'.jobs) && c'.jobs.waitAck.Keys == c.jobs.waitAck.Keys + {id}
    requires c'.jobs.online == c.jobs.online && c'.jobs.pending.Keys == c.jobs.pending.Keys - {id}
    ensures ClusterInv(c')
  {
    assert IdOk(c, id);
    forall j ensures IdOk(c', j) {
      assert IdOk(c, j);
      if j in c.m.entries { StillQueued(c.m, c'.m, c.m.entries[j], j); }
    }
    forall k: nat | k < |c'.dispatches| ensures SchedulingOk(c', k) && ConfirmingOk(c', k) {
      if k < |c.dispatches| {
        assert SchedulingOk(c, k) && ConfirmingOk(c, k);
      } else {
        NoneScheduled(c, id);
        NoneFailing(c, id);
      }
    }
    forall i: nat | c'.m.next <= i < |c'.m.events| ensures QueuedOk(c', i) { assert QueuedOk(c, i); }
  }

  lemma SubmitKeeps(c: Cluster, id: WorkerID, meta: JobMeta)
    requires ClusterInv(c) && id !in c.known
    ensures ClusterInv(Do(c, SubmitJob(id, meta)).c)
  {
    assert IdOk(c, id);
    WaitKeeps(c, id, Do(c, SubmitJob(id, meta)).c);
  }

  lemma RedispatchKeeps(c: Cluster, id: WorkerID)
    requires ClusterInv(c) && Possible(c, Redispatch(id))
    ensures ClusterInv(Do(c, Redispatch(id)).c)
  {
    assert IdOk(c, id);
    assert c.known + {id} == c.known;
    WaitKeeps(c, id, Do(c, Redispatch(id)).c);
  }

  // ---------------------------------------------------------------- starting and aborting

  /** BeforeStartingWorker never finds the worker there. */
  lemma StartKeepsJobs(c: Cluster, k: nat, executor: ExecutorID)
    requires ClusterInv(c) && StageIs(c, k, false)
    ensures Do(c, Start(k, executor)).Fine? && ClusterInv(Do(c, Start(k, executor)).c)
  {
    var id := c.dispatches[k].id;
    assert SchedulingOk(c, k);
    StartKeeps(c.m, id, executor, c.now);
    var c' := Do(c, Start(k, executor)).c;
    forall j ensures IdOk(c', j) {
      assert IdOk(c, j);
      if j in c.m.entries { StillQueued(c.m, c'.m, c.m.entries[j], j); }
    }
    forall j: nat | j < |c'.dispatches| ensures SchedulingOk(c', j) && ConfirmingOk(c', j) {
      assert SchedulingOk(c, j) && ConfirmingOk(c, j);
    }
    forall i: nat | c'.m.next <= i < |c'.m.events| ensures QueuedOk(c', i) {
      assert QueuedOk(c, i);
      assert c.m.events[i].OfflineEvent? || c.m.events[i].OnlineEvent? ==> c.m.events[i].id != id;
    }
  }

  /** The executor has refused the current incarnation, if there is one, and nothing is queued about it. */
  ghost predicate CanAbort(c: Cluster, id: WorkerID, refused: set<nat>)
    requires c.m.Valid()
  {
    && id in c.jobs.waitAck && refused !! c.running
    && (forall k :: 0 <= k < |c.dispatches| ==> c.dispatches[k] != Dispatch(id, Scheduling))
    && (forall i :: c.m.next <= i < |c.m.events| ==> c.m.events[i] != DispatchFailedEvent(id))
    && (if id in c.m.entries then refused == {c.m.entries[id]} && StillCreated(c, c.m.entries[id]) else refused == {})
  }

  /** Queuing the failure of a dispatch whose job has none queued. */
  lemma AbortKeeps(c: Cluster, id: WorkerID, refused: set<nat>)
    requires ClusterInv(c) && !AbortCreating(c.m, id).errored && CanAbort(c, id, refused)
    ensures ClusterInv(c.(m := AbortCreating(c.m, id), failed := c.failed + refused))
  {
    var c' := c.(m := AbortCreating(c.m, id), failed := c.failed + refused);
    EnqueueKeeps(c.m, DispatchFailedEvent(id));
    assert c'.m.events[|c.m.events|] == DispatchFailedEvent(id);
    forall j ensures IdOk(c', j) {
      assert IdOk(c, j);
      if j in c.m.entries { StillQueued(c.m, c'.m, c.m.entries[j], j); }
    }
    forall j: nat | j < |c'.dispatches| ensures SchedulingOk(c', j) && ConfirmingOk(c', j) {
      assert SchedulingOk(c, j) && ConfirmingOk(c, j);
    }
    forall i: nat | c'.m.next <= i < |c'.m.events| ensures QueuedOk(c', i) { AbortQueue(c, id, refused, i); }
  }

  lemma AbortQueue(c: Cluster, id: WorkerID, refused: set<nat>, i: nat)
    requires ClusterInv(c) && !AbortCreating(c.m, id).errored && CanAbort(c, id, refused)
    requires c.m.next <= i <= |c.m.events|
    ensures |AbortCreating(c.m, id).events| == |c.m.events| + 1
    ensures QueuedOk(c.(m := AbortCreating(c.m, id), failed := c.failed + refused), i)
  {
    if id in c.m.entries { NotYetOffline(c.m, c.m.entries[id]); }
    if i < |c.m.events| { assert QueuedOk(c, i); }
  }

  lemma NotYetOffline(m: Manager, ref: nat)
    requires Inv(m) && ref < |m.heap| && m.heap[ref].state == Created
    ensures forall j :: 0 <= j < |m.events| ==> !OfflineOf(m.events[j], ref)
    ensures forall j :: 0 <= j < |m.events| ==> !OnlineOf(m.events[j], ref)
  {
    forall j | 0 <= j < |m.events| ensures !OfflineOf(m.events[j], ref) && !OnlineOf(m.events[j], ref) {
      assert EventOk(m, j);
    }
  }

  lemma EarlyAbortKeeps(c: Cluster, k: nat)
    requires ClusterInv(c) && StageIs(c, k, false) && !Do(c, EarlyAbort(k)).c.m.errored
    ensures ClusterInv(Do(c, EarlyAbort(k)).c)
  {
    var id := c.dispatches[k].id;
    assert SchedulingOk(c, k);
    MoveKeeps(c, k, Over);
    var c1 := MoveTo(c, k, Over);
    assert forall j :: 0 <= j < |c1.dispatches| && j != k ==> c1.dispatches[j] == c.dispatches[j];
    AbortKeeps(c1, id, {});
    assert c.failed + {} == c.failed;
  }

  /** An entry that is still Created when its confirmation fails is the current one of a job still waiting. */
  lemma FailingIsCurrent(c: Cluster, k: nat)
    requires ClusterInv(c) && Possible(c, ConfirmFails(k)) && Harmless(c, ConfirmFails(k))
    ensures var ref, id := c.dispatches[k].stage.ref, c.dispatches[k].id;
      && ref < |c.m.heap| && c.m.heap[ref].id == id && IsMapped(c.m, ref) && CanAbort(c, id, {ref})
  {
    var ref, id := c.dispatches[k].stage.ref, c.dispatches[k].id;
    assert ConfirmingOk(c, k);
    assert RefOk(c.m, ref);
    assert IdOk(c, id);
    NoneScheduled(c, id);
    forall i | c.m.next <= i < |c.m.events| ensures c.m.events[i] != DispatchFailedEvent(id) {
      assert QueuedOk(c, i);
    }
  }

  lemma ConfirmFailsKeeps(c: Cluster, k: nat)
    requires ClusterInv(c) && Possible(c, ConfirmFails(k)) && Harmless(c, ConfirmFails(k))
    requires !Do(c, ConfirmFails(k)).c.m.errored
    ensures ClusterInv(Do(c, ConfirmFails(k)).c)
  {
    var id, ref := c.dispatches[k].id, c.dispatches[k].stage.ref;
    FailingIsCurrent(c, k);
    MoveKeeps(c, k, Over);
    var c1 := MoveTo(c, k, Over);
    NoneScheduled(c1, id);
    AbortKeeps(c1, id, {ref});
  }

  // ---------------------------------------------------------------- messages and checks

  /** `m'` differs from `m` in the entry of `ref`, and may have one more event. */
  ghost predicate OneEntryChanges(m: Manager, m': Manager, ref: nat)
    requires m.Valid() && ref < |m.heap|
  {
    && m'.Valid() && m'.entries == m.entries && m'.next == m.next && m'.phase == m.phase
    && m'.timeouts == m.timeouts && m'.aborted == m.aborted && |m'.heap| == |m.heap|
    && (forall r: nat :: r < |m.heap| && r != ref ==> m'.heap[r] == m.heap[r])
    && m'.heap[ref].id == m.heap[ref].id
    && Extends(m, m') && |m'.events| <= |m.events| + 1
  }

  lemma PingShape(m: Manager, id: WorkerID, finished: bool, node: ExecutorID, now: Time)
    requires Inv(m) && m.phase == Ready && id in m.entries
    ensures var r := Heartbeat(m, id, m.epoch, finished, node, now);
      var ref := m.entries[id];
      && r.Went? && Inv(r.m) && OneEntryChanges(m, r.m, ref)
      && r.m.heap[ref].state == (if m.heap[ref].state == Created then Normal else m.heap[ref].state)
      && (|r.m.events| > |m.events| ==>
            m.heap[ref].state == Created && r.m.events[|m.events|] == OnlineEvent(id, ref, node))
  {
    HeartbeatKeeps(m, id, m.epoch, finished, node, now);
  }

  lemma CheckShape(m: Manager, id: WorkerID, now: Time)
    requires Inv(m) && m.phase == Ready && id in m.entries
    ensures var r := CheckEntry(m, id, now);
      var ref := m.entries[id];
      && r.Went? && Inv(r.m) && OneEntryChanges(m, r.m, ref)
      && r.m.heap[ref] == m.heap[ref].(state := r.m.heap[ref].state)
      && (r.m.heap[ref].state == m.heap[ref].state
          || (CanGoOffline(m.heap[ref]) && ShouldGoOffline(m.heap[ref], now) && r.m.heap[ref].state == Offline))
      && (|r.m.events| > |m.events| ==> OfflineOf(r.m.events[|m.events|], ref))
  {
    CheckKeeps(m, id, now);
  }

  /** A change to one entry, and perhaps one more event, that keep what the job relies on. */
  lemma EntryChangeKeeps(c: Cluster, id: WorkerID, m': Manager)
    requires ClusterInv(c) && id in c.m.entries && Inv(m') && !m'.errored
    requires OneEntryChanges(c.m, m', c.m.entries[id])
    requires IdOk(c.(m := m'), id)
    requires |m'.events| > |c.m.events| ==>
      QueuedOk(c.(m := m'), |c.m.events|) && !m'.events[|c.m.events|].DispatchFailedEvent?
    ensures ClusterInv(c.(m := m'))
  {
    var c' := c.(m := m');
    forall j ensures IdOk(c', j) {
      assert IdOk(c, j);
      if j != id { IdKept(c, c', j); }
    }
    forall j: nat | j < |c'.dispatches| ensures SchedulingOk(c', j) && ConfirmingOk(c', j) {
      assert SchedulingOk(c, j) && ConfirmingOk(c, j);
    }
    forall i: nat | c'.m.next <= i < |c'.m.events| ensures QueuedOk(c', i) {
      if i < |c.m.events| { assert QueuedOk(c, i); }
    }
  }

  lemma PingKeeps(c: Cluster, id: WorkerID, finished: bool, node: ExecutorID)
    requires ClusterInv(c) && Possible(c, Ping(id, finished, node)) && Harmless(c, Ping(id, finished, node))
    ensures var r := Do(c, Ping(id, finished, node));
      r.Fine? && (!r.c.m.errored ==> ClusterInv(r.c))
  {
    if id in c.m.entries {
      var ref := c.m.entries[id];
      PingShape(c.m, id, finished, node, c.now);
      assert IdOk(c, id);
      var c' := Do(c, Ping(id, finished, node)).c;
      if !c'.m.errored {
        StillQueued(c.m, c'.m, ref, id);
        if |c'.m.events| > |c.m.events| { assert OnlineOf(c'.m.events[|c.m.events|], ref); }
        EntryChangeKeeps(c, id, c'.m);
      }
    }
  }

  lemma CheckKeepsJobs(c: Cluster, id: WorkerID)
    requires ClusterInv(c)
    ensures Do(c, Check(id)).Fine? && (!Do(c, Check(id)).c.m.errored ==> ClusterInv(Do(c, Check(id)).c))
  {
    if id in c.m.entries {
      CheckShape(c.m, id, c.now);
      assert IdOk(c, id);
      var c' := Do(c, Check(id)).c;
      if !c'.m.errored {
        StillQueued(c.m, c'.m, c.m.entries[id], id);
        EntryChangeKeeps(c, id, c'.m);
      }
    }
  }

  lemma StatusKeepsJobs(c: Cluster, id: WorkerID, status: WorkerStatus)
    requires ClusterInv(c)
    ensures var r := Do(c, StatusMessage(id, status)); r.Fine? && (!r.c.m.errored ==> ClusterInv(r.c))
  {
    if id in c.m.entries {
      EnqueueKeeps(c.m, StatusEvent(id, c.m.entries[id], c.m.heap[c.m.entries[id]].executor, status));
      var c' := Do(c, StatusMessage(id, status)).c;
      if !c'.m.errored {
        assert IdOk(c, id);
        IdKept(c, c', id);
        EntryChangeKeeps(c, id, c'.m);
      }
    }
  }

  // ---------------------------------------------------------------- callbacks

  ghost predicate AtHead(c: Cluster) {
    ClusterInv(c) && c.mode == Draining && c.m.next < |c.m.events|
  }

  lemma DeliverOnline(c: Cluster)
    requires AtHead(c) && c.m.events[c.m.next].OnlineEvent?
    ensures Delivered(c).Fine? && ClusterInv(Delivered(c).c)
  {
    var ev := c.m.events[c.m.next];
    OnlineKeeps(c.m);
    assert QueuedOk(c, c.m.next) && EventOk(c.m, c.m.next) && IdOk(c, ev.id);
    var c' := Delivered(c).c;
    forall j ensures IdOk(c', j) {
      assert IdOk(c, j);
      if j in c.m.entries { QueuedBehind(c.m, c'.m, c.m.entries[j], j); }
    }
    forall k: nat | k < |c'.dispatches| ensures SchedulingOk(c', k) && ConfirmingOk(c', k) {
      assert SchedulingOk(c, k) && ConfirmingOk(c, k);
    }
    forall i: nat | c'.m.next <= i < |c'.m.events| ensures QueuedOk(c', i) {
      assert QueuedOk(c, i) && Apart(ev, c.m.events[i]);
    }
  }

  lemma DeliverStatus(c: Cluster)
    requires AtHead(c) && c.m.events[c.m.next].StatusEvent?
    ensures Delivered(c).Fine? && ClusterInv(Delivered(c).c)
  {
    StatusKeeps(c.m);
    var c' := Delivered(c).c;
    forall j ensures IdOk(c', j) {
      assert IdOk(c, j);
      if j in c.m.entries { QueuedBehind(c.m, c'.m, c.m.entries[j], j); }
    }
    forall k: nat | k < |c'.dispatches| ensures SchedulingOk(c', k) && ConfirmingOk(c', k) {
      assert SchedulingOk(c, k) && ConfirmingOk(c, k);
    }
    forall i: nat | c'.m.next <= i < |c'.m.events| ensures QueuedOk(c', i) { assert QueuedOk(c, i); }
  }

  lemma DeliverDispatchFailed(c: Cluster)
    requires AtHead(c) && c.m.events[c.m.next].DispatchFailedEvent?
    ensures Delivered(c).Fine? && ClusterInv(Delivered(c).c)
  {
    var id := c.m.events[c.m.next].id;
    DispatchFailedKeeps(c.m);
    assert QueuedOk(c, c.m.next) && IdOk(c, id);
    var c' := Delivered(c).c;
    forall j ensures IdOk(c', j) {
      assert IdOk(c, j);
      if j in c.m.entries { QueuedBehind(c.m, c'.m, c.m.entries[j], j); }
    }
    forall k: nat | k < |c'.dispatches| ensures SchedulingOk(c', k) && ConfirmingOk(c', k) {
      assert SchedulingOk(c, k) && ConfirmingOk(c, k);
    }
    forall i: nat | c'.m.next <= i < |c'.m.events| ensures QueuedOk(c', i) { assert QueuedOk(c, i); }
  }

  lemma OfflineTick(m: Manager)
    requires m.Valid() && m.next < |m.events| && m.events[m.next].OfflineEvent?
    requires var ev := m.events[m.next];
      m.heap[ev.ref].state == Offline && (ev.id in m.entries ==> m.entries[ev.id] == ev.ref)
    ensures var ev, r := m.events[m.next], TickOne(m, true);
      && r.Went? && ev.id !in r.m.entries
      && r.m == m.(next := m.next + 1, log := r.m.log, entries := m.entries - {ev.id},
                   heap := m.heap[ev.ref := m.heap[ev.ref].(state := Tombstone)])
  {
    var ev := m.events[m.next];
    if ev.id !in m.entries { assert m.entries - {ev.id} == m.entries; }
  }

  /** An offline event finds its own entry, or the job already pending and no entry at all. */
  lemma OfflineShape(c: Cluster)
    requires AtHead(c) && c.m.events[c.m.next].OfflineEvent?
    ensures var ev, r := c.m.events[c.m.next], TickOne(c.m, true);
      && r.Went? && Inv(r.m) && ev.id !in r.m.entries
      && r.m == c.m.(next := c.m.next + 1, log := r.m.log, entries := c.m.entries - {ev.id},
                     heap := c.m.heap[ev.ref := c.m.heap[ev.ref].(state := Tombstone)])
      && (ev.id in c.m.entries ==> c.m.entries[ev.id] == ev.ref)
      && (ev.id !in c.m.entries ==> ev.id in c.jobs.pending)
      && c.m.heap[ev.ref].state == Offline
  {
    var ev := c.m.events[c.m.next];
    assert QueuedOk(c, c.m.next) && EventOk(c.m, c.m.next) && IdOk(c, ev.id);
    OfflineTick(c.m);
    TickKeeps(c.m, true);
  }

  lemma OfflineQueue(c: Cluster, i: nat)
    requires AtHead(c) && c.m.events[c.m.next].OfflineEvent? && c.m.next < i < |c.m.events|
    ensures Delivered(c).Fine? && Delivered(c).c.m.Valid() && |Delivered(c).c.m.events| == |c.m.events|
    ensures QueuedOk(Delivered(c).c, i)
  {
    OfflineShape(c);
    assert IdOk(c, c.m.events[c.m.next].id) && QueuedOk(c, i) && Apart(c.m.events[c.m.next], c.m.events[i]);
  }

  lemma OfflineGoroutines(c: Cluster, k: nat)
    requires AtHead(c) && c.m.events[c.m.next].OfflineEvent? && k < |c.dispatches|
    ensures Delivered(c).Fine? && Delivered(c).c.m.Valid() && Delivered(c).c.dispatches == c.dispatches
    ensures SchedulingOk(Delivered(c).c, k) && ConfirmingOk(Delivered(c).c, k)
  {
    OfflineShape(c);
    assert IdOk(c, c.m.events[c.m.next].id) && SchedulingOk(c, k) && ConfirmingOk(c, k);
  }

  lemma DeliverOffline(c: Cluster)
    requires AtHead(c) && c.m.events[c.m.next].OfflineEvent?
    ensures Delivered(c).Fine? && ClusterInv(Delivered(c).c)
  {
    var ev := c.m.events[c.m.next];
    OfflineShape(c);
    assert IdOk(c, ev.id);
    var c' := Delivered(c).c;
    forall j ensures IdOk(c', j) {
      assert IdOk(c, j);
      if j in c.m.entries { QueuedBehind(c.m, c'.m, c.m.entries[j], j); }
    }
    forall k: nat | k < |c'.dispatches| ensures SchedulingOk(c', k) && ConfirmingOk(c', k) { OfflineGoroutines(c, k); }
    forall i: nat | c'.m.next <= i < |c'.m.events| ensures QueuedOk(c', i) { OfflineQueue(c, i); }
  }

  lemma DeliverKeeps(c: Cluster)
    requires ClusterInv(c) && c.mode == Draining
    ensures Do(c, Deliver).Fine? && ClusterInv(Do(c, Deliver).c)
  {
    if c.m.next < |c.m.events| {
      match c.m.events[c.m.next]
      case OnlineEvent(_, _, _) => DeliverOnline(c);
      case StatusEvent(_, _, _, _) => DeliverStatus(c);
      case OfflineEvent(_, _, _) => DeliverOffline(c);
      case DispatchFailedEvent(_) => DeliverDispatchFailed(c);
    }
  }

  // ---------------------------------------------------------------- every run

  /** No harmless action fails, and every one keeps the invariant unless the queue overflows. */
  lemma ActionKeeps(c: Cluster, a: Action)
    requires ClusterInv(c) && Possible(c, a) && Harmless(c, a)
    ensures Do(c, a).Fine?
    ensures !Do(c, a).c.m.errored ==> ClusterInv(Do(c, a).c)
  {
    match a
    case SubmitJob(id, meta) => SubmitKeeps(c, id, meta);
    case Redispatch(id) => RedispatchKeeps(c, id);
    case Deliver => DeliverKeeps(c);
    case EarlyAbort(k) => if !Do(c, a).c.m.errored { EarlyAbortKeeps(c, k); }
    case PrepareFails(k) => MoveKeeps(c, k, Over);
    case Start(k, executor) => StartKeepsJobs(c, k, executor);
    case ConfirmFails(k) => if !Do(c, a).c.m.errored { ConfirmFailsKeeps(c, k); }
    case ConfirmReturns(k) =>
      assert ConfirmingOk(c, k);
      MoveKeeps(c, k, Returned(c.dispatches[k].stage.ref));
    case Ping(id, finished, node) => PingKeeps(c, id, finished, node);
    case StatusMessage(id, status) => StatusKeepsJobs(c, id, status);
    case Check(id) => CheckKeepsJobs(c, id);
    case _ => QuietKeeps(c, a);
  }

  /** A run, its latest action outermost. */
  datatype History = Empty(first: Cluster) | After(before: History, action: Action, cluster: Cluster)

  function Now(h: History): Cluster {
    if h.Empty? then h.first else h.cluster
  }

  /** An empty cluster: the job manager has found no worker to wait for. */
  predicate EmptyCluster(c: Cluster) {
    && c.m == NewManager(c.m.epoch, c.m.timeouts, true)
    && c.jobs == NO_JOBS && c.dispatches == [] && c.known == {} && c.running == {} && c.failed == {}
  }

  /** A run from an empty cluster in which the event queue has not overflowed. */
  ghost predicate IsHistory(h: History)
    ensures IsHistory(h) ==> Now(h).m.Valid()
  {
    match h
    case Empty(first) => EmptyCluster(first)
    case After(before, a, c') =>
      && IsHistory(before) && Possible(Now(before), a) && Do(Now(before), a) == Fine(c')
      && c'.m.Valid() && !c'.m.errored
  }

  ghost predicate NeverHarmed(h: History) {
    h.After? ==> NeverHarmed(h.before) && Harmless(Now(h.before), h.action)
  }

  lemma {:induction false} HistoryKeeps(h: History)
    requires IsHistory(h) && NeverHarmed(h)
    ensures ClusterInv(Now(h))
    decreases h
  {
    match h
    case Empty(first) => InvInit(first.m.epoch, first.m.timeouts, true);
    case After(before, a, c') =>
      HistoryKeeps(before);
      ActionKeeps(Now(before), a);
  }

  /**
   In every run without harm, no re-dispatch finds the worker there, no handle panics and no callback
   misses its job, whatever the delays.
   */
  lemma {:induction false} NothingFails(h: History, a: Action)
    requires IsHistory(h) && NeverHarmed(h) && Possible(Now(h), a)
    ensures Do(Now(h), a).Fine?
  {
    HistoryKeeps(h);
    if Harmless(Now(h), a) { ActionKeeps(Now(h), a); } else { HarmIsDelayed(Now(h), a); }
  }

  /** A harmful action shows its harm only later. */
  lemma HarmIsDelayed(c: Cluster, a: Action)
    requires ClusterInv(c) && Possible(c, a) && !Harmless(c, a)
    ensures Do(c, a).Fine?
  {
    if a.Ping? { HeartbeatKeeps(c.m, a.id, c.m.epoch, a.finished, a.node, c.now); }
  }

  /** In every run without harm a pending job has no worker entry, and an online one has an entry that is alive. */
  lemma {:induction false} JobsMatchWorkers(h: History, id: WorkerID)
    requires IsHistory(h) && NeverHarmed(h)
    ensures var c := Now(h);
      && (id in c.jobs.pending ==> id !in c.m.entries)
      && (id in c.jobs.online ==> id in c.m.entries && c.m.heap[c.m.entries[id]].state in {Normal, Offline})
      && (id in c.m.entries ==> id in c.jobs.waitAck || id in c.jobs.online)
  {
    HistoryKeeps(h);
    assert IdOk(Now(h), id);
  }
}
