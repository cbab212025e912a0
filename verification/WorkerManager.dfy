/**
 The WorkerManager as the source has it: entries are objects shared by the map and by the hooks of
 queued events, and every method updates them in place. Each method is shown to do the step of
 ManagerModel that bears its name, and no MarkAs method ever finds a state it does not allow.
 */
module WorkerManager {
  import opened Timeouts
  import opened Wrappers
  import opened ManagerModel
  import opened ManagerInvariant

  class WorkerEntry {
    const id: WorkerID
    var executorID: ExecutorID
    var expireAt: Time
    var state: EntryState
    var receivedFinish: bool
    var status: WorkerStatus

    constructor (id: WorkerID, executorID: ExecutorID, expireAt: Time, state: EntryState, status: WorkerStatus)
      ensures Value() == Entry(id, executorID, expireAt, state, false, status)
    {
      this.id, this.executorID, this.expireAt := id, executorID, expireAt;
      this.state, this.receivedFinish, this.status := state, false, status;
    }

    function Value(): Entry
      reads this
    {
      Entry(id, executorID, expireAt, state, receivedFinish, status)
    }

    /** The MarkAs methods change the state if it allows that; otherwise they panic. */
    method MarkAsTombstone() returns (ok: bool)
      modifies this
      ensures ok == CanBeTombstone(old(Value())) == (old(state) == Wait || old(state) == Offline || old(receivedFinish))
      ensures Value() == if ok then old(Value()).(state := Tombstone) else old(Value())
    {
      ok := state == Wait || state == Offline || receivedFinish;
      if ok { state := Tombstone; }
    }

    method MarkAsOnline(executor: ExecutorID, expireAt: Time) returns (ok: bool)
      modifies this
      ensures ok == CanGoOnline(old(Value())) == (old(state) == Created || old(state) == Wait)
      ensures Value() ==
        if ok then old(Value()).(state := Normal, expireAt := expireAt, executor := executor) else old(Value())
    {
      ok := state == Created || state == Wait;
      if ok {
        state := Normal;
        this.expireAt := expireAt;
        executorID := executor;
      }
    }

    method MarkAsOffline() returns (ok: bool)
      modifies this
      ensures ok == CanGoOffline(old(Value())) == (old(state) == Created || old(state) == Normal)
      ensures Value() == if ok then old(Value()).(state := Offline) else old(Value())
    {
      ok := state == Created || state == Normal;
      if ok { state := Offline; }
    }
  }

  /** An event with the entry its hook is bound to; an online event has no hook and only remembers it. */
  datatype MasterEvent =
    | WorkerOnline(id: WorkerID, entry: WorkerEntry, executor: ExecutorID)
    | WorkerGone(id: WorkerID, entry: WorkerEntry, reason: OfflineReason)
    | WorkerStatusUpdated(id: WorkerID, entry: WorkerEntry, executor: ExecutorID, status: WorkerStatus)
    | WorkerDispatchFailed(id: WorkerID)

  /** A queued event and its counterpart in the model, where `refs` lists the entries by incarnation. */
  predicate Matches(ev: MasterEvent, spec: Event, refs: seq<WorkerEntry>) {
    match ev
    case WorkerOnline(id, entry, executor) =>
      spec.OnlineEvent? && spec.ref < |refs| && refs[spec.ref] == entry && spec == OnlineEvent(id, spec.ref, executor)
    case WorkerGone(id, entry, reason) =>
      spec.OfflineEvent? && spec.ref < |refs| && refs[spec.ref] == entry && spec == OfflineEvent(id, spec.ref, reason)
    case WorkerStatusUpdated(id, entry, executor, status) =>
      && spec.StatusEvent? && spec.ref < |refs| && refs[spec.ref] == entry
      && spec == StatusEvent(id, spec.ref, executor, status)
    case WorkerDispatchFailed(id) => spec == DispatchFailedEvent(id)
  }

  /** The map leads to the objects that the model's map leads to, and no object stands for two incarnations. */
  ghost predicate Links(
    workerEntries: map<WorkerID, WorkerEntry>, entries: map<WorkerID, nat>,
    refs: seq<WorkerEntry>, indexOf: map<WorkerEntry, nat>)
  {
    && (forall r :: 0 <= r < |refs| ==> refs[r] in indexOf && indexOf[refs[r]] == r)
    && workerEntries.Keys == entries.Keys
    && (forall id :: id in workerEntries ==> entries[id] < |refs| && workerEntries[id] == refs[entries[id]])
  }

  ghost predicate QueueMatches(queue: seq<MasterEvent>, events: seq<Event>, next: nat, refs: seq<WorkerEntry>) {
    && next + |queue| == |events|
    && (forall i :: 0 <= i < |queue| ==> Matches(queue[i], events[next + i], refs))
  }

  lemma LinksMore(
    workerEntries: map<WorkerID, WorkerEntry>, entries: map<WorkerID, nat>,
    refs: seq<WorkerEntry>, indexOf: map<WorkerEntry, nat>, id: WorkerID, entry: WorkerEntry)
    requires Links(workerEntries, entries, refs, indexOf) && entry !in refs
    ensures Links(workerEntries[id := entry], entries[id := |refs|], refs + [entry], indexOf[entry := |refs|])
  {}

  lemma QueueMore(queue: seq<MasterEvent>, events: seq<Event>, next: nat, refs: seq<WorkerEntry>, entry: WorkerEntry)
    requires QueueMatches(queue, events, next, refs)
    ensures QueueMatches(queue, events, next, refs + [entry])
  {
    forall i | 0 <= i < |queue| ensures Matches(queue[i], events[next + i], refs + [entry]) {
      MatchesMore(queue[i], events[next + i], refs, entry);
    }
  }

  lemma MatchesMore(ev: MasterEvent, spec: Event, refs: seq<WorkerEntry>, entry: WorkerEntry)
    requires Matches(ev, spec, refs)
    ensures Matches(ev, spec, refs + [entry])
  {}

  /** Renewing the lease first and then changing the state is one change of the entry. */
  lemma PutTwice(m: Manager, ref: nat, e: Entry, e': Entry)
    requires m.Valid() && ref < |m.heap| && e.id == m.heap[ref].id && e'.id == e.id
    ensures Put(Put(m, ref, e), ref, e') == Put(m, ref, e')
  {
    assert m.heap[ref := e][ref := e'] == m.heap[ref := e'];
  }

  /** What a heartbeat does once the lease is renewed: bring a waiting or created entry online. */
  function FirstPing(m: Manager, id: WorkerID, node: ExecutorID, now: Time): Outcome
    requires m.Valid() && id in m.entries
  {
    var ref := m.entries[id];
    var e := m.heap[ref];
    var e' := e.(state := Normal, expireAt := NextExpireTime(m.timeouts, now), executor := node);
    if m.phase == WaitingHeartbeat then
      if e.state != Wait then Went(m) else Discovered(Put(m, ref, e'))
    else if e.state != Created then Went(m)
    else Went(Enqueue(Put(m, ref, e'), OnlineEvent(id, ref, node)))
  }

  function Renewed(m: Manager, id: WorkerID, finished: bool, now: Time): (m': Manager)
    requires m.Valid() && id in m.entries
    ensures m'.Valid()
  {
    Put(m, m.entries[id], Refreshed(m, m.heap[m.entries[id]], finished, now))
  }

  lemma HeartbeatInParts(m: Manager, id: WorkerID, finished: bool, node: ExecutorID, now: Time)
    requires m.Valid() && m.phase != LoadingMeta && id in m.entries
    ensures Heartbeat(m, id, m.epoch, finished, node, now) == FirstPing(Renewed(m, id, finished, now), id, node, now)
  {
    var ref := m.entries[id];
    var e := Refreshed(m, m.heap[ref], finished, now);
    PutTwice(m, ref, e, e.(state := Normal, executor := node));
  }

  class WorkerManager {
    const epoch: int
    const timeouts: TimeoutConfig
    var state: Phase
    var workerEntries: map<WorkerID, WorkerEntry>
    var eventQueue: seq<MasterEvent>
    var errored: bool
    var allWorkersReadyClosed: bool

    /** The state of the model, and the entry objects in the order of its heap. */
    ghost var model: Manager
    ghost var refs: seq<WorkerEntry>
    ghost var indexOf: map<WorkerEntry, nat>

    ghost predicate Values()
      reads this, refs
    {
      |refs| == |model.heap| && forall r :: 0 <= r < |refs| ==> refs[r].Value() == model.heap[r]
    }

    ghost predicate Scalars()
      reads this
    {
      && model.epoch == epoch && model.timeouts == timeouts && model.phase == state
      && model.errored == errored && allWorkersReadyClosed == (model.readyCloses > 0)
    }

    /** The fields are those of the model. */
    ghost predicate Coupled()
      reads this, refs
    {
      && model.Valid() && Scalars() && Values() && Links(workerEntries, model.entries, refs, indexOf)
      && QueueMatches(eventQueue, model.events, model.next, refs)
    }

    ghost predicate Valid()
      reads this, refs
    {
      Coupled() && Inv(model)
    }

    constructor (epoch: int, timeouts: TimeoutConfig, isInit: bool)
      ensures Valid() && model == NewManager(epoch, timeouts, isInit)
      ensures refs == [] && this.epoch == epoch && this.timeouts == timeouts
    {
      this.epoch, this.timeouts := epoch, timeouts;
      state := if isInit then Ready else LoadingMeta;
      workerEntries, eventQueue, errored, allWorkersReadyClosed := map[], [], false, false;
      model, refs, indexOf := NewManager(epoch, timeouts, isInit), [], map[];
      new;
      InvInit(epoch, timeouts, isInit);
    }

    /** enqueueEvent, and the error it leaves behind if the queue stays full. */
    method EnqueueEvent(event: MasterEvent, ghost spec: Event) returns (ok: bool)
      requires Coupled() && Matches(event, spec, refs)
      requires spec.DispatchFailedEvent? || (spec.ref < |model.heap| && model.heap[spec.ref].id == spec.id)
      modifies this`eventQueue, this`errored, this`model
      ensures Coupled() && model == Enqueue(old(model), spec)
      ensures ok <==> |old(eventQueue)| < 1024
      ensures eventQueue == (if ok then old(eventQueue) + [event] else old(eventQueue))
      ensures errored == (old(errored) || !ok)
    {
      ok := |eventQueue| < QUEUE_CAPACITY;
      if !ok {
        errored := true;
      } else {
        eventQueue := eventQueue + [event];
      }
      model := Enqueue(model, spec);
    }

    /** The model follows a change of the entry `entry`, the incarnation `ref`. */
    ghost method Follow(ref: nat, entry: WorkerEntry)
      requires model.Valid() && Scalars() && ref < |refs| == |model.heap| && refs[ref] == entry
      requires Links(workerEntries, model.entries, refs, indexOf)
      requires QueueMatches(eventQueue, model.events, model.next, refs)
      requires entry.id == model.heap[ref].id
      requires forall r :: 0 <= r < |refs| && r != ref ==> refs[r].Value() == model.heap[r]
      modifies this`model
      ensures Coupled() && model == Put(old(model), ref, entry.Value())
    {
      model := Put(model, ref, entry.Value());
    }

    /** The part of a heartbeat that renews the lease. */
    method Refresh(id: WorkerID, finished: bool, now: Time)
      requires Coupled() && id in workerEntries
      modifies this`model, refs
      ensures Coupled() && model == Renewed(old(model), id, finished, now)
    {
      var entry := workerEntries[id];
      ghost var ref := model.entries[id];
      if finished { entry.receivedFinish := true; }
      entry.expireAt := NextExpireTime(timeouts, now);
      Follow(ref, entry);
    }

    method Online(id: WorkerID, node: ExecutorID, expireAt: Time) returns (entry: WorkerEntry)
      requires Coupled() && id in workerEntries && CanGoOnline(model.heap[model.entries[id]])
      modifies this`model, refs
      ensures Coupled() && entry == workerEntries[id]
      ensures var ref := old(model).entries[id];
        model == Put(old(model), ref, old(model).heap[ref].(state := Normal, expireAt := expireAt, executor := node))
    {
      entry := workerEntries[id];
      ghost var ref := model.entries[id];
      assert refs[ref] == entry && refs[ref].Value() == model.heap[ref];
      var marked := entry.MarkAsOnline(node, expireAt);
      assert marked;
      Follow(ref, entry);
    }

    /** Resumes the master once no entry waits; closing the channel a second time would panic. */
    method CloseIfReady() returns (panic: Option<Panic>)
      requires Coupled()
      modifies this`model, this`allWorkersReadyClosed
      ensures Coupled()
      ensures var r := Discovered(old(model));
        if r.Went? then panic == None && model == r.m else panic == Some(r.why) && model == old(model)
    {
      var allReady := forall id :: id in workerEntries ==> workerEntries[id].state != Wait;
      assert allReady == NoneWaiting(model) by {
        forall id | id in workerEntries
          ensures workerEntries[id].state == model.heap[model.entries[id]].state
        {
          assert refs[model.entries[id]].Value() == model.heap[model.entries[id]];
        }
      }
      if !allReady { return None; }
      if allWorkersReadyClosed { return Some(ClosedTwice); }
      allWorkersReadyClosed := true;
      model := Discovered(model).m;
      panic := None;
    }

    /** The step was made, or its panic raised. */
    ghost predicate Follows(r: Outcome, panic: Option<Panic>)
      reads this
    {
      if r.Went? then panic == None && model == r.m else panic == Some(r.why)
    }

    method Discover(id: WorkerID, node: ExecutorID, now: Time) returns (panic: Option<Panic>)
      requires Coupled() && id in workerEntries && state == WaitingHeartbeat
      modifies this`model, this`allWorkersReadyClosed, refs
      ensures Coupled() && Follows(FirstPing(old(model), id, node, now), panic)
    {
      assert refs[model.entries[id]].Value() == model.heap[model.entries[id]];
      if workerEntries[id].state != Wait { return None; }
      var _ := Online(id, node, NextExpireTime(timeouts, now));
      panic := CloseIfReady();
    }

    method Announce(id: WorkerID, node: ExecutorID, now: Time)
      requires Coupled() && id in workerEntries && state != WaitingHeartbeat
      modifies this`model, this`eventQueue, this`errored, refs
      ensures Coupled() && Went(model) == FirstPing(old(model), id, node, now)
    {
      ghost var ref := model.entries[id];
      assert refs[ref].Value() == model.heap[ref];
      if workerEntries[id].state == Created {
        var entry := Online(id, node, NextExpireTime(timeouts, now));
        var _ := EnqueueEvent(WorkerOnline(id, entry, node), OnlineEvent(id, ref, node));
      }
    }

    method DoHeartbeat(id: WorkerID, msgEpoch: int, finished: bool, node: ExecutorID, now: Time)
      returns (panic: Option<Panic>)
      requires Coupled()
      modifies this, refs
      ensures Coupled() && refs == old(refs)
      ensures Follows(Heartbeat(old(model), id, msgEpoch, finished, node, now), panic)
    {
      if state == LoadingMeta { return None; }
      if msgEpoch > epoch { return Some(StaleMaster); }
      if msgEpoch < epoch || id !in workerEntries { return None; }
      panic := Listen(id, finished, node, now);
    }

    /** A heartbeat of this epoch from a worker that has an entry. */
    method Listen(id: WorkerID, finished: bool, node: ExecutorID, now: Time) returns (panic: Option<Panic>)
      requires Coupled() && state != LoadingMeta && id in workerEntries
      modifies this`model, this`eventQueue, this`errored, this`allWorkersReadyClosed, refs
      ensures Coupled()
      ensures Follows(Heartbeat(old(model), id, epoch, finished, node, now), panic)
    {
      HeartbeatInParts(model, id, finished, node, now);
      Refresh(id, finished, now);
      panic := FirstHeartbeat(id, node, now);
    }

    /** What a heartbeat does to an entry that has had none. */
    method FirstHeartbeat(id: WorkerID, node: ExecutorID, now: Time) returns (panic: Option<Panic>)
      requires Coupled() && id in workerEntries
      modifies this`model, this`eventQueue, this`errored, this`allWorkersReadyClosed, refs
      ensures Coupled() && Follows(FirstPing(old(model), id, node, now), panic)
    {
      if state == WaitingHeartbeat {
        panic := Discover(id, node, now);
      } else {
        Announce(id, node, now);
        panic := None;
      }
    }

    /** Panics only if the message is from a larger epoch than the master's own. */
    method HandleHeartbeat(id: WorkerID, msgEpoch: int, finished: bool, node: ExecutorID, now: Time)
      returns (panic: Option<Panic>)
      requires Valid()
      modifies this, refs
      ensures refs == old(refs) && Follows(Heartbeat(old(model), id, msgEpoch, finished, node, now), panic)
      ensures panic == None ==> Valid()
      ensures panic.Some? <==> old(state) != LoadingMeta && msgEpoch > epoch
    {
      HeartbeatKeeps(model, id, msgEpoch, finished, node, now);
      panic := DoHeartbeat(id, msgEpoch, finished, node, now);
    }

    method OnWorkerStatusUpdateMessage(id: WorkerID, msgEpoch: int, status: WorkerStatus)
      returns (panic: Option<Panic>)
      requires Valid()
      modifies this
      ensures refs == old(refs) && Follows(StatusUpdate(old(model), id, msgEpoch, status), panic)
      ensures panic == None ==> Valid()
      ensures panic.Some? <==> msgEpoch > epoch
    {
      StepKeeps(model, StatusStep(id, msgEpoch, status));
      if msgEpoch > epoch { return Some(StaleMaster); }
      panic := None;
      if msgEpoch < epoch || id !in workerEntries { return; }
      ghost var ref := model.entries[id];
      var entry := workerEntries[id];
      assert refs[ref].Value() == model.heap[ref];
      var _ := EnqueueEvent(WorkerStatusUpdated(id, entry, entry.executorID, status),
                            StatusEvent(id, ref, entry.executorID, status));
    }

    method AbortCreatingWorker(id: WorkerID)
      requires Valid()
      modifies this`model, this`eventQueue, this`errored
      ensures Coupled() && model == AbortCreating(old(model), id)
      ensures state == Ready ==> Valid()
    {
      if state == Ready { StepKeeps(model, AbortStep(id)); }
      var _ := EnqueueEvent(WorkerDispatchFailed(id), DispatchFailedEvent(id));
    }

    method BeforeStartingWorker(id: WorkerID, executor: ExecutorID, now: Time) returns (panic: Option<Panic>)
      requires Valid()
      modifies this`model, this`workerEntries, this`refs, this`indexOf
      ensures Coupled() && Follows(BeforeStarting(old(model), id, executor, now), panic)
      ensures panic == None ==> |refs| == |old(refs)| + 1 && fresh(refs[|old(refs)|]) && old(refs) <= refs
      ensures panic == None && state == Ready ==> Valid()
      ensures panic.Some? <==> id in old(workerEntries)
    {
      if id in workerEntries { return Some(WorkerAlreadyExists); }
      if state == Ready { StartKeeps(model, id, executor, now); }
      var entry := new WorkerEntry(id, executor, NextExpireTime(timeouts, now), Created, WorkerStatus(StatusCreated, ""));
      AddEntry(entry);
      panic := None;
    }

    /** Puts a new entry into the map under its ID. */
    method AddEntry(entry: WorkerEntry)
      requires Coupled() && entry !in refs && entry.id !in workerEntries
      modifies this`model, this`workerEntries, this`refs, this`indexOf
      ensures Coupled() && refs == old(refs) + [entry] && model == Bind(old(model), entry.Value())
    {
      LinksMore(workerEntries, model.entries, refs, indexOf, entry.id, entry);
      QueueMore(eventQueue, model.events, model.next, refs, entry);
      workerEntries := workerEntries[entry.id := entry];
      indexOf := indexOf[entry := |refs|];
      refs := refs + [entry];
      model := Bind(model, entry.Value());
    }

    ghost method CountRecovered()
      requires Coupled()
      modifies this`model
      ensures Coupled() && model == old(model).(recovered := old(model).recovered + 1)
    {
      model := model.(recovered := model.recovered + 1);
    }

    /** Panics only if the entry is there and not a tombstone. */
    method RemoveTombstoneEntry(id: WorkerID) returns (panic: Option<Panic>)
      requires Coupled()
      modifies this`model, this`workerEntries
      ensures Coupled() && Follows(RemoveTombstone(old(model), id), panic)
    {
      if id !in workerEntries { return None; }
      assert refs[model.entries[id]].Value() == model.heap[model.entries[id]];
      if workerEntries[id].state != Tombstone { return Some(NotATombstone); }
      workerEntries := workerEntries - {id};
      model := Unbind(model, id);
      panic := None;
    }

    // -------------------------------------------------------------- the expiry checker

    method TakeOffline(id: WorkerID) returns (ok: bool)
      requires Coupled() && id in workerEntries && CanGoOffline(model.heap[model.entries[id]])
      modifies this`model, this`eventQueue, this`errored, refs
      ensures Coupled() && (!ok ==> errored)
      ensures var ref := old(model).entries[id];
        var e := old(model).heap[ref];
        model == Enqueue(Put(old(model), ref, e.(state := Offline)), OfflineEvent(id, ref, OfflineReasonOf(e.status)))
    {
      var entry := workerEntries[id];
      ghost var ref := model.entries[id];
      assert refs[ref].Value() == model.heap[ref];
      var marked := entry.MarkAsOffline();
      assert marked;
      Follow(ref, entry);
      var reason := OfflineReasonOf(entry.status);
      ok := EnqueueEvent(WorkerGone(id, entry, reason), OfflineEvent(id, ref, reason));
    }

    /** One entry of the check; with a full queue the check gives up. */
    method CheckOne(id: WorkerID, now: Time) returns (ok: bool)
      requires Valid() && id in workerEntries && state == Ready
      modifies this`model, this`eventQueue, this`errored, refs
      ensures Valid() && Went(model) == CheckEntry(old(model), id, now) && CheckedOne(old(model), model, id, now)
      ensures !ok ==> errored
    {
      CheckMore(model, id, now);
      var entry := workerEntries[id];
      assert refs[model.entries[id]].Value() == model.heap[model.entries[id]];
      ok := true;
      if entry.state == Offline || entry.state == Tombstone { return; }
      if entry.expireAt < now || entry.receivedFinish {
        ok := TakeOffline(id);
      }
    }

    /** checkWorkerEntriesOnce: `order` is the order in which the map was walked, `now` the clock at each entry. */
    method CheckWorkerEntriesOnce(now: WorkerID -> Time) returns (ok: bool, ghost order: seq<WorkerID>)
      requires Valid()
      modifies this`model, this`eventQueue, this`errored, refs
      ensures Valid() && Went(model) == CheckAll(old(model), order, now)
      ensures ok && state == Ready ==> SettledExcept(model, {}, now)
      ensures !ok ==> errored
    {
      ok, order := true, [];
      if state != Ready { return; }
      var todo := workerEntries.Keys;
      while todo != {}
        invariant Valid() && todo <= workerEntries.Keys
        invariant Went(model) == CheckAll(old(model), order, now)
        invariant SettledExcept(model, todo, now)
        decreases todo
      {
        var id :| id in todo;
        ghost var before := model;
        ok := CheckOne(id, now(id));
        CheckSnoc(old(model), order, id, now);
        SettleOne(before, model, id, todo, now);
        todo, order := todo - {id}, order + [id];
        if !ok { return; }
      }
    }

    // -------------------------------------------------------------- ticks

    method Dequeue() returns (event: MasterEvent)
      requires Coupled() && |eventQueue| > 0
      modifies this`eventQueue, this`model
      ensures Coupled() && model == old(model).(next := old(model).next + 1)
      ensures Matches(event, old(model).events[old(model).next], refs) && |eventQueue| == |old(eventQueue)| - 1
    {
      QueueLess(eventQueue, model.events, model.next, refs);
      event := eventQueue[0];
      eventQueue := eventQueue[1..];
      model := model.(next := model.next + 1);
    }

    /** UpdateStatus under the hook of its event; for a tombstone the event is cancelled. */
    method UpdateStatus(entry: WorkerEntry, status: WorkerStatus, ghost spec: Event) returns (called: bool)
      requires Coupled() && spec.StatusEvent? && spec.ref < |refs| && refs[spec.ref] == entry && spec.status == status
      modifies this`model, refs
      ensures Coupled() && Went(model) == RunHook(old(model), spec)
      ensures called == (old(model).heap[spec.ref].state != Tombstone)
    {
      assert refs[spec.ref].Value() == model.heap[spec.ref];
      called := entry.state != Tombstone;
      if called {
        entry.status := status;
        Follow(spec.ref, entry);
        model := Call(model, spec.ref, StatusCall);
      }
    }

    method Bury(entry: WorkerEntry, ghost spec: Event)
      requires Coupled() && spec.OfflineEvent? && spec.ref < |refs| && refs[spec.ref] == entry
      requires CanBeTombstone(model.heap[spec.ref])
      modifies this`model, refs
      ensures Coupled() && Went(model) == RunHook(old(model), spec)
    {
      assert refs[spec.ref].Value() == model.heap[spec.ref];
      var marked := entry.MarkAsTombstone();
      assert marked;
      Follow(spec.ref, entry);
      model := Call(model, spec.ref, OfflineCall);
    }

    /** The hook of an event, and whether its callback is due. */
    method RunBeforeHook(event: MasterEvent, ghost spec: Event) returns (called: bool)
      requires Coupled() && Matches(event, spec, refs) && RunHook(model, spec).Went?
      modifies this`model, this`workerEntries, refs
      ensures Coupled() && Went(model) == RunHook(old(model), spec)
      ensures called == Reaches(old(model), spec)
    {
      called := true;
      match event
      case WorkerOnline(_, _, _) => model := RunHook(model, spec).m;
      case WorkerStatusUpdated(_, entry, _, status) => called := UpdateStatus(entry, status, spec);
      case WorkerGone(_, entry, _) => Bury(entry, spec);
      case WorkerDispatchFailed(id) =>
        workerEntries := workerEntries - {id};
        model := RunHook(model, spec).m;
    }

    /** Dequeues an event and runs its hook, which the invariant lets it do. */
    method NextEvent() returns (event: MasterEvent, called: bool)
      requires Coupled() && |eventQueue| > 0 && TickOne(model, false).Went?
      modifies this`model, this`workerEntries, this`eventQueue, refs
      ensures Coupled() && Went(model) == TickOne(old(model), false) && |eventQueue| == |old(eventQueue)| - 1
      ensures Matches(event, old(model).events[old(model).next], refs)
      ensures called == Reaches(old(model), old(model).events[old(model).next])
    {
      ghost var spec := model.events[model.next];
      event := Dequeue();
      called := RunBeforeHook(event, spec);
    }

    /** One round of Tick; with `clean` the callback cleans the tombstone handle it is given. */
    method TickRound(clean: bool) returns (panic: Option<Panic>, called: bool)
      requires Valid() && |eventQueue| > 0
      modifies this`model, this`workerEntries, this`eventQueue, refs
      ensures Follows(TickOne(old(model), clean), panic)
      ensures panic == None ==> Valid() && |eventQueue| == |old(eventQueue)| - 1
      ensures panic.Some? ==> CleansSuccessor(old(model), clean) && panic.value == NotATombstone
      ensures called == Reaches(old(model), old(model).events[old(model).next])
    {
      TickInParts(model, clean);
      ghost var spec := model.events[model.next];
      var event: MasterEvent;
      event, called := NextEvent();
      panic := Clean(clean, event, spec);
    }

    /** The clean-up that the callback of an offline or failed worker may do. */
    method Clean(clean: bool, event: MasterEvent, ghost spec: Event) returns (panic: Option<Panic>)
      requires Coupled() && Matches(event, spec, refs)
      modifies this`model, this`workerEntries
      ensures Coupled() && Follows(AfterCallback(Went(old(model)), clean, spec), panic)
    {
      panic := None;
      if clean && (event.WorkerGone? || event.WorkerDispatchFailed?) {
        panic := RemoveTombstoneEntry(event.id);
      }
    }

    /** A round makes one more round of the model, and takes exactly the next event off the queue. */
    method DrainOne(clean: bool, ghost trace: Trace) returns (panic: Option<Panic>, called: bool, ghost more: Trace)
      requires Valid() && |eventQueue| > 0 && IsTrace(trace, clean) && Latest(trace) == model
      modifies this`model, this`workerEntries, this`eventQueue, refs
      ensures panic == None ==>
        && Valid() && model.events == old(model).events && model.next == old(model).next + 1
        && more == trace + [model] && IsTrace(more, clean)
      ensures panic.Some? ==> clean && panic.value == NotATombstone && Panics(trace, clean, NotATombstone)
      ensures called == CallsBack(old(model))
    {
      more := TraceNext(trace, clean);
      panic, called := TickRound(clean);
    }

    /**
     Tick: rounds of the model until the queue is empty; `trace` is the models from round to round. It
     does nothing once an error is recorded. It stops when its context is done (from round `stop` on) or
     behind a callback that fails (in a round in `fails`), and for no other reason.
     */
    method Tick(clean: bool, stop: Option<nat>, fails: set<nat>) returns (end: TickEnd, ghost trace: Trace)
      requires Valid()
      modifies this`model, this`workerEntries, this`eventQueue, refs
      ensures IsTrace(trace, clean) && trace[0] == old(model)
      ensures !end.Crashed? ==> Valid() && Latest(trace) == model && model.events == old(model).events
      ensures Latest(trace).next == old(model).next + |trace| - 1
      ensures end == Drained ==> eventQueue == [] && model.next == |model.events|
      ensures old(errored) ==> end == Interrupted && trace == [old(model)]
      ensures stop.Some? ==> |trace| <= stop.value + 1
      ensures end == Interrupted && !old(errored) ==>
        || stop == Some(|trace| - 1)
        || (|trace| > 1 && CallsBack(trace[|trace| - 2]) && |trace| - 2 in fails)
      ensures end.Crashed? ==> clean && end.why == NotATombstone && Panics(trace, clean, NotATombstone)
    {
      trace := [model];
      if errored { return Interrupted, trace; }
      var i := 0;
      while |eventQueue| > 0
        invariant Valid() && IsTrace(trace, clean) && |trace| == i + 1 && trace[0] == old(model) && Latest(trace) == model
        invariant model.events == old(model).events && model.next == old(model).next + i
        invariant stop.Some? ==> i <= stop.value
        decreases |eventQueue|
      {
        if stop == Some(i) { return Interrupted, trace; }
        ghost var more;
        var panic, called;
        panic, called, more := DrainOne(clean, trace);
        if panic.Some? { return Crashed(panic.value), trace; }
        i, trace := i + 1, more;
        if called && i - 1 in fails { return Interrupted, trace; }
      }
      end := Drained;
    }

    // -------------------------------------------------------------- recovery

    /** An entry for one persisted worker, unless it has finished. */
    method LoadOne(w: Persisted, ghost m0: Manager, ghost order: seq<Persisted>)
      requires Coupled() && m0.Valid() && model == LoadEntries(m0, order) && w.id !in workerEntries
      modifies this`model, this`workerEntries, this`refs, this`indexOf
      ensures Coupled() && model == LoadEntries(m0, order + [w])
      ensures workerEntries.Keys <= old(workerEntries).Keys + {w.id}
    {
      LoadSnoc(m0, order, w);
      if w.status.code != StatusFinished { AddWaiting(w); }
    }

    method AddWaiting(w: Persisted)
      requires Coupled() && w.id !in workerEntries
      modifies this`model, this`workerEntries, this`refs, this`indexOf
      ensures Coupled()
      ensures model == Bind(old(model), Entry(w.id, ExecutorID(""), 0, Wait, false, w.status))
                         .(recovered := old(model).recovered + 1)
    {
      var entry := new WorkerEntry(w.id, ExecutorID(""), 0, Wait, w.status);
      AddEntry(entry);
      CountRecovered();
    }

    method LoadAll(workers: map<WorkerID, WorkerStatus>) returns (ghost order: seq<Persisted>)
      requires Coupled() && workerEntries == map[]
      modifies this`model, this`workerEntries, this`refs, this`indexOf
      ensures Coupled() && model == LoadEntries(old(model), order)
      ensures Distinct(order) && Lists(order, workers, {})
    {
      order := [];
      var todo := workers.Keys;
      while todo != {}
        invariant Coupled() && model == LoadEntries(old(model), order)
        invariant todo <= workers.Keys && workerEntries.Keys !! todo
        invariant Distinct(order) && Lists(order, workers, todo)
        decreases todo
      {
        var id :| id in todo;
        var w := Persisted(id, workers[id]);
        LoadOne(w, old(model), order);
        ListsMore(order, workers, todo, w);
        todo, order := todo - {id}, order + [w];
      }
    }

    /** InitAfterRecover up to the wait for heartbeats; `order` is the order in which the workers were loaded. */
    method LoadPersistedWorkers(workers: map<WorkerID, WorkerStatus>)
      returns (panic: Option<Panic>, ghost order: seq<Persisted>)
      requires Valid()
      modifies this
      ensures Follows(LoadPersisted(old(model), order), panic)
      ensures panic == None ==> Valid() && Distinct(order) && Lists(order, workers, {})
      ensures panic.Some? <==> old(state) != LoadingMeta
    {
      order := [];
      if state != LoadingMeta { return Some(NotLoading), order; }
      ghost var m0 := model;
      assert workerEntries.Keys == {};
      order := LoadAll(workers);
      Resume();
      LoadKeeps(m0, order);
      panic := None;
    }

    /** With no worker to wait for the manager is ready at once. */
    method Resume()
      requires Coupled()
      modifies this`state, this`model
      ensures Coupled()
      ensures model == old(model).(phase := if |old(model).entries| == 0 then Ready else WaitingHeartbeat)
    {
      SameSize(workerEntries, model.entries);
      state := if |workerEntries| == 0 then Ready else WaitingHeartbeat;
      model := model.(phase := if |model.entries| == 0 then Ready else WaitingHeartbeat);
    }

    /** Marks the entries that have not been heard of or have finished; no mark is refused. */
    method SweepAll()
      requires Coupled()
      modifies refs
      ensures forall r :: 0 <= r < |refs| ==> refs[r].Value() == SweptIn(model, r, workerEntries.Keys)
    {
      var todo := workerEntries.Keys;
      ghost var done := {};
      while todo != {}
        invariant todo + done == workerEntries.Keys && todo !! done
        invariant forall r :: 0 <= r < |refs| ==> refs[r].Value() == SweptIn(model, r, done)
        decreases todo
      {
        var id :| id in todo;
        var entry := workerEntries[id];
        assert refs[model.entries[id]].Value() == SweptIn(model, model.entries[id], done);
        if entry.state == Wait || entry.receivedFinish {
          var marked := entry.MarkAsTombstone();
          assert marked;
        }
        todo, done := todo - {id}, done + {id};
      }
    }

    /** The final sweep of InitAfterRecover. */
    method FinishRecovering()
      requires Valid() && state == WaitingHeartbeat
      modifies this`state, this`model, refs
      ensures Valid() && model == FinishRecover(old(model))
    {
      SweepKeeps(model);
      SweepAll();
      state := Ready;
      model := FinishRecover(model);
    }
  }

  lemma SameSize(a: map<WorkerID, WorkerEntry>, b: map<WorkerID, nat>)
    requires a.Keys == b.Keys
    ensures |a| == |b|
  {
    assert |a| == |a.Keys| == |b.Keys| == |b|;
  }

  /** An entry during the final sweep, once the IDs `done` have been looked at. */
  ghost function SweptIn(m: Manager, ref: nat, done: set<WorkerID>): Entry
    requires ref < |m.heap|
  {
    if IsMapped(m, ref) && m.heap[ref].id in done then Swept(m.heap[ref]) else m.heap[ref]
  }

  /** `order` lists the workers, apart from those still to be loaded. */
  ghost predicate Lists(order: seq<Persisted>, workers: map<WorkerID, WorkerStatus>, todo: set<WorkerID>) {
    && (forall i :: 0 <= i < |order| ==>
          order[i].id in workers && order[i].id !in todo && workers[order[i].id] == order[i].status)
    && (forall id :: id in workers && id !in todo ==> Persisted(id, workers[id]) in order)
  }

  lemma ListsMore(order: seq<Persisted>, workers: map<WorkerID, WorkerStatus>, todo: set<WorkerID>, w: Persisted)
    requires Lists(order, workers, todo) && Distinct(order)
    requires w.id in todo && w.id in workers && workers[w.id] == w.status
    ensures Lists(order + [w], workers, todo - {w.id}) && Distinct(order + [w])
  {
    assert (order + [w])[|order|] == w;
  }

  lemma LoadSnoc(m: Manager, order: seq<Persisted>, w: Persisted)
    requires m.Valid()
    ensures var l := LoadEntries(m, order);
      LoadEntries(m, order + [w])
      == if w.status.code == StatusFinished then l
         else Bind(l, Entry(w.id, ExecutorID(""), 0, Wait, false, w.status)).(recovered := l.recovered + 1)
  {
    assert (order + [w])[..|order|] == order;
  }

  /** Whether the callback of an event is reached: a status for a tombstone is cancelled. */
  predicate Reaches(m: Manager, spec: Event)
    requires spec.DispatchFailedEvent? || spec.ref < |m.heap|
  {
    spec.StatusEvent? ==> m.heap[spec.ref].state != Tombstone
  }

  datatype TickEnd = Drained | Interrupted | Crashed(why: Panic)

  /** Models from one round of Tick to the next. */
  type Trace = seq<Manager>

  ghost predicate IsRound(trace: Trace, clean: bool, k: nat)
    requires k + 1 < |trace|
  {
    trace[k].Valid() && TickOne(trace[k], clean) == Went(trace[k + 1])
  }

  ghost predicate IsTrace(trace: Trace, clean: bool) {
    |trace| > 0 && forall k: nat :: k + 1 < |trace| ==> IsRound(trace, clean, k)
  }

  function Latest(trace: Trace): Manager
    requires |trace| > 0
  {
    trace[|trace| - 1]
  }

  /** The next round panics. */
  ghost predicate Panics(trace: Trace, clean: bool, why: Panic) {
    |trace| > 0 && Latest(trace).Valid() && TickOne(Latest(trace), clean) == Panicked(why)
  }

  /** The event of the next round reaches its callback. */
  ghost predicate CallsBack(m: Manager) {
    m.Valid() && m.next < |m.events| && Reaches(m, m.events[m.next])
  }

  lemma TraceNext(trace: Trace, clean: bool) returns (more: Trace)
    requires IsTrace(trace, clean) && Latest(trace).Valid() && Latest(trace).next < |Latest(trace).events|
    ensures var m := Latest(trace);
      match TickOne(m, clean)
      case Panicked(why) => Panics(trace, clean, why)
      case Went(m') => m'.events == m.events && m'.next == m.next + 1 && more == trace + [m'] && IsTrace(more, clean)
  {
    var r := TickOne(Latest(trace), clean);
    more := trace;
    if r.Went? {
      more := trace + [r.m];
      forall k: nat | k + 1 < |more| ensures IsRound(more, clean, k) {
        if k + 1 < |trace| { assert IsRound(trace, clean, k); }
      }
    }
  }

  /** A round is the event's own effect and, where the callback asks for it, the removal of the entry. */
  lemma TickInParts(m: Manager, clean: bool)
    requires Inv(m) && m.next < |m.events|
    ensures TickOne(m, false).Went? && Inv(TickOne(m, false).m)
    ensures TickOne(m, clean) == AfterCallback(TickOne(m, false), clean, m.events[m.next])
    ensures var r := TickOne(m, clean);
      if r.Went? then Inv(r.m) else CleansSuccessor(m, clean) && r.why == NotATombstone
  {
    TickKeeps(m, false);
    TickKeeps(m, clean);
  }

  lemma QueueLess(queue: seq<MasterEvent>, events: seq<Event>, next: nat, refs: seq<WorkerEntry>)
    requires QueueMatches(queue, events, next, refs) && |queue| > 0
    ensures QueueMatches(queue[1..], events, next + 1, refs) && Matches(queue[0], events[next], refs)
  {
    var rest := queue[1..];
    forall i | 0 <= i < |rest| ensures Matches(rest[i], events[next + 1 + i], refs) {
      assert rest[i] == queue[i + 1] && Matches(queue[i + 1], events[next + (i + 1)], refs);
    }
    assert Matches(queue[0], events[next + 0], refs);
  }

  /** Down already, or not yet due. */
  predicate Settled(e: Entry, now: Time) {
    e.state == Offline || e.state == Tombstone || !ShouldGoOffline(e, now)
  }

  function CheckAll(m: Manager, order: seq<WorkerID>, now: WorkerID -> Time): (r: Outcome)
    requires m.Valid()
    ensures r.Went? ==> r.m.Valid()
  {
    if |order| == 0 then Went(m)
    else
      var r := CheckAll(m, order[..|order| - 1], now);
      if r.Went? then CheckEntry(r.m, order[|order| - 1], now(order[|order| - 1])) else r
  }

  lemma CheckSnoc(m: Manager, order: seq<WorkerID>, id: WorkerID, now: WorkerID -> Time)
    requires m.Valid()
    ensures CheckAll(m, order + [id], now)
         == var r := CheckAll(m, order, now); if r.Went? then CheckEntry(r.m, id, now(id)) else r
  {
    assert (order + [id])[..|order|] == order;
  }

  /** Every entry is settled, apart from those still to be looked at. */
  ghost predicate SettledExcept(m: Manager, todo: set<WorkerID>, now: WorkerID -> Time)
    requires m.Valid()
  {
    forall id :: id in m.entries && id !in todo ==> Settled(m.heap[m.entries[id]], now(id))
  }

  /** A check of one entry settles it and leaves the others alone. */
  ghost predicate CheckedOne(m: Manager, m': Manager, id: WorkerID, now: Time)
    requires m.Valid() && id in m.entries
  {
    && m'.Valid() && m'.entries == m.entries && m'.phase == Ready && |m'.heap| == |m.heap|
    && Settled(m'.heap[m.entries[id]], now)
    && forall ref: nat :: ref < |m.heap| && ref != m.entries[id] ==> m'.heap[ref] == m.heap[ref]
  }

  lemma CheckMore(m: Manager, id: WorkerID, now: Time)
    requires Inv(m) && m.phase == Ready && id in m.entries
    ensures m.heap[m.entries[id]].state != Wait
    ensures var r := CheckEntry(m, id, now); r.Went? && Inv(r.m) && CheckedOne(m, r.m, id, now)
  {
    assert RefOk(m, m.entries[id]);
    CheckKeeps(m, id, now);
  }

  lemma SettleOne(m: Manager, m': Manager, id: WorkerID, todo: set<WorkerID>, now: WorkerID -> Time)
    requires m.Valid() && id in m.entries && CheckedOne(m, m', id, now(id)) && SettledExcept(m, todo, now)
    ensures SettledExcept(m', todo - {id}, now)
  {}
}
