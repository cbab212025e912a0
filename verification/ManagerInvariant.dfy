/**
 What every step of the WorkerManager keeps: how queued events, entries and callbacks fit together,
 and exactly which steps can panic.
 */
module ManagerInvariant {
  import opened Timeouts
  import opened ManagerModel

  // ---------------------------------------------------------------- callback order

  /** Where an incarnation stands in the order status* online? status* offline?. */
  datatype Stage = Fresh | Onlined | Gone | Broken

  function Advance(stage: Stage, callback: Callback): Stage {
    match (stage, callback)
    case (Fresh, StatusCall) => Fresh
    case (Fresh, OnlineCall) => Onlined
    case (Fresh, OfflineCall) => Gone
    case (Onlined, StatusCall) => Onlined
    case (Onlined, OfflineCall) => Gone
    case _ => Broken
  }

  function StageOf(log: Log, ref: nat): Stage {
    match log
    case NoCalls => Fresh
    case Called(before, r, callback) =>
      if r == ref then Advance(StageOf(before, ref), callback) else StageOf(before, ref)
  }

  predicate EverOnlined(log: Log, ref: nat) {
    match log
    case NoCalls => false
    case Called(before, r, callback) => (r == ref && callback == OnlineCall) || EverOnlined(before, ref)
  }

  // ---------------------------------------------------------------- the invariant

  predicate IsOffline(m: Manager, i: nat, ref: nat)
    requires i < |m.events|
  {
    m.events[i].OfflineEvent? && m.events[i].ref == ref
  }

  ghost predicate OfflineQueued(m: Manager, ref: nat)
    requires m.Valid()
  {
    exists i :: m.next <= i < |m.events| && IsOffline(m, i, ref)
  }

  ghost predicate RefOk(m: Manager, ref: nat)
    requires m.Valid() && ref < |m.heap|
  {
    var e := m.heap[ref];
    && (ref in m.aborted || e.state == Tombstone || IsMapped(m, ref))
    && StageOf(m.log, ref) != Broken
    && (StageOf(m.log, ref) == Gone ==> e.state == Tombstone)
    && (e.state == Wait || e.state == Created ==> StageOf(m.log, ref) == Fresh)
    && (e.state == Wait ==> m.phase == WaitingHeartbeat)
    && (ref < m.recovered ==> e.state != Created && !EverOnlined(m.log, ref))
    && (e.state == Offline ==> m.errored || OfflineQueued(m, ref))
  }

  ghost predicate EventOk(m: Manager, i: nat)
    requires m.Valid() && i < |m.events|
  {
    match m.events[i]
    case OfflineEvent(_, ref, _) =>
      if i < m.next then m.heap[ref].state == Offline || m.heap[ref].state == Tombstone
      else m.heap[ref].state == Offline
    case OnlineEvent(_, ref, _) =>
      && m.heap[ref].state != Wait && m.heap[ref].state != Created && m.recovered <= ref
      && (m.next <= i ==> m.heap[ref].state != Tombstone && StageOf(m.log, ref) == Fresh)
    case _ => true
  }

  /** One online and one offline event per incarnation, in this order. */
  predicate Apart(a: Event, b: Event) {
    a.DispatchFailedEvent? || b.DispatchFailedEvent? || a.ref != b.ref
    || ((a.OfflineEvent? ==> b.StatusEvent?) && (a.OnlineEvent? ==> !b.OnlineEvent?))
  }

  ghost predicate PhaseOk(m: Manager)
    requires m.Valid()
  {
    && m.readyCloses <= 1
    && m.recovered <= |m.heap|
    && (m.phase == LoadingMeta ==> m.heap == [] && m.entries == map[] && m.readyCloses == 0)
    && (m.phase == WaitingHeartbeat && m.readyCloses > 0 ==> NoneWaiting(m))
    && (m.phase != Ready ==>
          && |m.heap| == m.recovered && m.aborted == {}
          && (forall i :: 0 <= i < |m.events| ==> m.events[i].StatusEvent?))
  }

  ghost predicate Inv(m: Manager) {
    && m.Valid()
    && (forall ref: nat :: ref < |m.heap| ==> RefOk(m, ref))
    && (forall i: nat :: i < |m.events| ==> EventOk(m, i))
    && (forall i, j :: 0 <= i < j < |m.events| ==> Apart(m.events[i], m.events[j]))
    && (forall ref: nat :: |m.heap| <= ref ==> StageOf(m.log, ref) == Fresh)
    && PhaseOk(m)
  }

  lemma InvInit(epoch: int, timeouts: TimeoutConfig, isInit: bool)
    ensures Inv(NewManager(epoch, timeouts, isInit))
  {}

  // ---------------------------------------------------------------- primitive changes

  lemma EnqueueKeepsQueued(m: Manager, ev: Event, ref: nat)
    requires m.Valid() && OfflineQueued(m, ref)
    requires ev.DispatchFailedEvent? || (ev.ref < |m.heap| && m.heap[ev.ref].id == ev.id)
    ensures OfflineQueued(Enqueue(m, ev), ref)
  {
    var i :| m.next <= i < |m.events| && IsOffline(m, i, ref);
    assert IsOffline(Enqueue(m, ev), i, ref);
  }

  /** Changing an entry without changing its state. */
  lemma PutKeeps(m: Manager, ref: nat, e: Entry)
    requires Inv(m) && ref < |m.heap| && e.id == m.heap[ref].id && e.state == m.heap[ref].state
    ensures Inv(Put(m, ref, e))
  {
    var m' := Put(m, ref, e);
    forall r: nat | r < |m'.heap| ensures RefOk(m', r) {
      assert RefOk(m, r);
      if m.heap[r].state == Offline && !m.errored { SameQueue(m, m', r); }
    }
    forall i: nat | i < |m'.events| ensures EventOk(m', i) { assert EventOk(m, i); }
  }

  lemma SameQueue(m: Manager, m': Manager, ref: nat)
    requires m.Valid() && m'.Valid() && m'.events == m.events && m'.next == m.next && OfflineQueued(m, ref)
    ensures OfflineQueued(m', ref)
  {
    var i :| m.next <= i < |m.events| && IsOffline(m, i, ref);
    assert IsOffline(m', i, ref);
  }

  /** A status event or a failed dispatch may be queued at any time. */
  lemma EnqueueKeeps(m: Manager, ev: Event)
    requires Inv(m)
    requires ev.StatusEvent? || (ev.DispatchFailedEvent? && m.phase == Ready)
    requires ev.DispatchFailedEvent? || (ev.ref < |m.heap| && m.heap[ev.ref].id == ev.id)
    ensures Inv(Enqueue(m, ev))
  {
    var m' := Enqueue(m, ev);
    forall r: nat | r < |m'.heap| ensures RefOk(m', r) {
      assert RefOk(m, r);
      if m.heap[r].state == Offline && !m.errored { EnqueueKeepsQueued(m, ev, r); }
    }
    forall i: nat | i < |m'.events| ensures EventOk(m', i) {
      if i < |m.events| { assert EventOk(m, i); }
    }
  }

  // ---------------------------------------------------------------- each step keeps the invariant

  /** An incarnation that is created or discovered has no event queued that speaks of its life. */
  lemma NoEventsYet(m: Manager, ref: nat, i: nat)
    requires Inv(m) && ref < |m.heap| && i < |m.events| && !m.events[i].DispatchFailedEvent? && m.events[i].ref == ref
    ensures m.heap[ref].state == Created || m.heap[ref].state == Wait ==> m.events[i].StatusEvent?
    ensures m.heap[ref].state == Normal ==> !m.events[i].OfflineEvent?
  {
    assert EventOk(m, i);
  }

  lemma GoOnlineKeeps(m: Manager, ref: nat, e: Entry)
    requires Inv(m) && m.phase == Ready && ref < |m.heap| && m.heap[ref].state == Created
    requires e.id == m.heap[ref].id && e.state == Normal
    ensures Inv(Enqueue(Put(m, ref, e), OnlineEvent(e.id, ref, e.executor)))
  {
    var p := Put(m, ref, e);
    var ev := OnlineEvent(e.id, ref, e.executor);
    var m' := Enqueue(p, ev);
    assert RefOk(m, ref);
    forall r: nat | r < |m'.heap| ensures RefOk(m', r) {
      assert RefOk(m, r);
      if m.heap[r].state == Offline && !m.errored {
        SameQueue(m, p, r);
        EnqueueKeepsQueued(p, ev, r);
      }
    }
    forall i: nat | i < |m'.events| ensures EventOk(m', i) {
      if i < |m.events| { assert EventOk(m, i); }
    }
    forall i, j | 0 <= i < j < |m'.events| ensures Apart(m'.events[i], m'.events[j]) {
      if j == |m.events| && !m.events[i].DispatchFailedEvent? && m.events[i].ref == ref { NoEventsYet(m, ref, i); }
    }
  }

  lemma GoOfflineKeeps(m: Manager, ref: nat, e: Entry, reason: OfflineReason)
    requires Inv(m) && m.phase == Ready && ref < |m.heap| && CanGoOffline(m.heap[ref])
    requires e.id == m.heap[ref].id && e.state == Offline
    ensures Inv(Enqueue(Put(m, ref, e), OfflineEvent(e.id, ref, reason)))
  {
    var p := Put(m, ref, e);
    var ev := OfflineEvent(e.id, ref, reason);
    var m' := Enqueue(p, ev);
    forall r: nat | r < |m'.heap| ensures RefOk(m', r) {
      assert RefOk(m, r);
      if r == ref {
        if !m'.errored { assert IsOffline(m', |m.events|, r); }
      } else if m.heap[r].state == Offline && !m.errored {
        SameQueue(m, p, r);
        EnqueueKeepsQueued(p, ev, r);
      }
    }
    forall i: nat | i < |m'.events| ensures EventOk(m', i) {
      if i < |m.events| { assert EventOk(m, i); }
    }
    forall i, j | 0 <= i < j < |m'.events| ensures Apart(m'.events[i], m'.events[j]) {
      if j == |m.events| && !m.events[i].DispatchFailedEvent? && m.events[i].ref == ref { NoEventsYet(m, ref, i); }
    }
  }

  lemma DiscoverKeeps(m: Manager, ref: nat, e: Entry)
    requires Inv(m) && m.phase == WaitingHeartbeat && ref < |m.heap| && m.heap[ref].state == Wait
    requires e.id == m.heap[ref].id && e.state == Normal
    ensures Discovered(Put(m, ref, e)).Went? && Inv(Discovered(Put(m, ref, e)).m)
  {
    var p := Put(m, ref, e);
    assert RefOk(m, ref);
    assert IsMapped(m, ref);
    assert !NoneWaiting(m);
    var m' := Discovered(p).m;
    forall r: nat | r < |m'.heap| ensures RefOk(m', r) {
      assert RefOk(m, r);
      if m.heap[r].state == Offline && !m.errored { SameQueue(m, m', r); }
    }
    forall i: nat | i < |m'.events| ensures EventOk(m', i) { assert EventOk(m, i); }
  }

  lemma HeartbeatKeeps(m: Manager, id: WorkerID, epoch: int, finished: bool, node: ExecutorID, now: Time)
    requires Inv(m)
    ensures var r := Heartbeat(m, id, epoch, finished, node, now);
      (r.Panicked? <==> m.phase != LoadingMeta && epoch > m.epoch) && (r.Went? ==> Inv(r.m))
  {
    if m.phase != LoadingMeta && epoch == m.epoch && id in m.entries {
      var ref := m.entries[id];
      var e := Refreshed(m, m.heap[ref], finished, now);
      if m.phase == WaitingHeartbeat && e.state == Wait {
        DiscoverKeeps(m, ref, e.(state := Normal, executor := node));
      } else if m.phase == Ready && e.state == Created {
        GoOnlineKeeps(m, ref, e.(state := Normal, executor := node));
      } else {
        PutKeeps(m, ref, e);
      }
    }
  }

  lemma CheckKeeps(m: Manager, id: WorkerID, now: Time)
    requires Inv(m)
    ensures var r := CheckEntry(m, id, now); r.Went? && Inv(r.m)
  {
    if m.phase == Ready && id in m.entries {
      var ref := m.entries[id];
      var e := m.heap[ref];
      assert RefOk(m, ref);
      if CanGoOffline(e) { GoOfflineKeeps(m, ref, e.(state := Offline), OfflineReasonOf(e.status)); }
    }
  }

  lemma StartKeeps(m: Manager, id: WorkerID, executor: ExecutorID, now: Time)
    requires Inv(m) && m.phase == Ready && id !in m.entries
    ensures var r := BeforeStarting(m, id, executor, now); r.Went? && Inv(r.m)
  {
    var m' := BeforeStarting(m, id, executor, now).m;
    forall r: nat | r < |m'.heap| ensures RefOk(m', r) {
      if r < |m.heap| {
        assert RefOk(m, r);
        if m.heap[r].state == Offline && !m.errored { SameQueue(m, m', r); }
      }
    }
    forall i: nat | i < |m'.events| ensures EventOk(m', i) { assert EventOk(m, i); }
  }

  lemma RemoveKeeps(m: Manager, id: WorkerID)
    requires Inv(m)
    ensures var r := RemoveTombstone(m, id);
      && (r.Panicked? <==> id in m.entries && m.heap[m.entries[id]].state != Tombstone)
      && (r.Went? ==> Inv(r.m))
  {
    if id in m.entries && m.heap[m.entries[id]].state == Tombstone {
      var m' := Unbind(m, id);
      forall r: nat | r < |m'.heap| ensures RefOk(m', r) {
        assert RefOk(m, r);
        if m.heap[r].state == Offline && !m.errored { SameQueue(m, m', r); }
      }
      forall i: nat | i < |m'.events| ensures EventOk(m', i) { assert EventOk(m, i); }
    }
  }

  // ---------------------------------------------------------------- ticks

  /** Dequeuing leaves the later events queued. */
  lemma StillQueued(m: Manager, m': Manager, ref: nat)
    requires m.Valid() && m'.Valid() && m.next < |m.events| && m'.events == m.events && m'.next == m.next + 1
    requires OfflineQueued(m, ref) && !IsOffline(m, m.next, ref)
    ensures OfflineQueued(m', ref)
  {
    var i :| m.next <= i < |m.events| && IsOffline(m, i, ref);
    assert IsOffline(m', i, ref);
  }

  lemma OnlineKeeps(m: Manager)
    requires Inv(m) && m.next < |m.events| && m.events[m.next].OnlineEvent?
    ensures TickOne(m, false).Went? && Inv(TickOne(m, false).m)
  {
    var ref := m.events[m.next].ref;
    var m' := TickOne(m, false).m;
    assert EventOk(m, m.next);
    forall r: nat | r < |m'.heap| ensures RefOk(m', r) {
      assert RefOk(m, r);
      if m.heap[r].state == Offline && !m.errored { StillQueued(m, m', r); }
    }
    forall i: nat | i < |m'.events| ensures EventOk(m', i) {
      assert EventOk(m, i);
      if m.next < i { assert Apart(m.events[m.next], m.events[i]); }
    }
  }

  /** Dequeuing a status event. */
  lemma DequeueKeeps(m: Manager)
    requires Inv(m) && m.next < |m.events| && m.events[m.next].StatusEvent?
    ensures Inv(m.(next := m.next + 1))
  {
    var m' := m.(next := m.next + 1);
    forall r: nat | r < |m'.heap| ensures RefOk(m', r) {
      assert RefOk(m, r);
      if m.heap[r].state == Offline && !m.errored { StillQueued(m, m', r); }
    }
    forall i: nat | i < |m'.events| ensures EventOk(m', i) { assert EventOk(m, i); }
  }

  lemma StatusCallKeeps(m: Manager, ref: nat)
    requires Inv(m) && ref < |m.heap| && m.heap[ref].state != Tombstone
    ensures Inv(Call(m, ref, StatusCall))
  {
    var m' := Call(m, ref, StatusCall);
    assert RefOk(m, ref);
    forall r: nat | r < |m'.heap| ensures RefOk(m', r) {
      assert RefOk(m, r);
      if m.heap[r].state == Offline && !m.errored { SameQueue(m, m', r); }
    }
    forall i: nat | i < |m'.events| ensures EventOk(m', i) { assert EventOk(m, i); }
  }

  lemma StatusKeeps(m: Manager)
    requires Inv(m) && m.next < |m.events| && m.events[m.next].StatusEvent?
    ensures TickOne(m, false).Went? && Inv(TickOne(m, false).m)
  {
    var ev := m.events[m.next];
    DequeueKeeps(m);
    if m.heap[ev.ref].state != Tombstone {
      var p := m.(next := m.next + 1);
      PutKeeps(p, ev.ref, p.heap[ev.ref].(status := ev.status));
      StatusCallKeeps(Put(p, ev.ref, p.heap[ev.ref].(status := ev.status)), ev.ref);
    }
  }

  lemma OfflineKeeps(m: Manager)
    requires Inv(m) && m.next < |m.events| && m.events[m.next].OfflineEvent?
    ensures TickOne(m, false).Went? && Inv(TickOne(m, false).m)
  {
    var ref := m.events[m.next].ref;
    assert EventOk(m, m.next);
    var m' := TickOne(m, false).m;
    assert RefOk(m, ref);
    forall r: nat | r < |m'.heap| ensures RefOk(m', r) {
      assert RefOk(m, r);
      if r != ref && m.heap[r].state == Offline && !m.errored { StillQueued(m, m', r); }
    }
    forall i: nat | i < |m'.events| ensures EventOk(m', i) {
      assert EventOk(m, i);
      if m.next < i { assert Apart(m.events[m.next], m.events[i]); }
    }
  }

  lemma DispatchFailedKeeps(m: Manager)
    requires Inv(m) && m.next < |m.events| && m.events[m.next].DispatchFailedEvent?
    ensures TickOne(m, false).Went? && Inv(TickOne(m, false).m)
  {
    var m' := TickOne(m, false).m;
    forall r: nat | r < |m'.heap| ensures RefOk(m', r) {
      assert RefOk(m, r);
      if m.heap[r].state == Offline && !m.errored { StillQueued(m, m', r); }
    }
    forall i: nat | i < |m'.events| ensures EventOk(m', i) { assert EventOk(m, i); }
  }

  /** A round in terms of the outcome of its hook. */
  lemma TickIs(m: Manager, clean: bool, hooked: Outcome)
    requires m.Valid() && m.next < |m.events| && (hooked.Went? ==> hooked.m.Valid())
    requires hooked == RunHook(m.(next := m.next + 1), m.events[m.next])
    ensures TickOne(m, clean) == AfterCallback(hooked, clean, m.events[m.next])
  {}

  /**
   Cleaning a handle inside its own callback can only go wrong for an incarnation that had been
   aborted and whose ID has been given to a new one.
   */
  predicate CleansSuccessor(m: Manager, clean: bool)
    requires m.Valid()
  {
    && clean && m.next < |m.events|
    && var ev := m.events[m.next];
       ev.OfflineEvent? && ev.id in m.entries && m.entries[ev.id] != ev.ref
       && m.heap[m.entries[ev.id]].state != Tombstone
  }

  lemma TickKeeps(m: Manager, clean: bool)
    requires Inv(m)
    ensures var r := TickOne(m, clean);
      && (r.Panicked? <==> CleansSuccessor(m, clean))
      && (r.Panicked? ==> r.why == NotATombstone && m.events[m.next].ref in m.aborted)
      && (r.Went? ==> Inv(r.m))
  {
    if m.next < |m.events| {
      var ev := m.events[m.next];
      match ev {
        case OnlineEvent(_, _, _) => OnlineKeeps(m);
        case StatusEvent(_, _, _, _) => StatusKeeps(m);
        case OfflineEvent(_, ref, _) =>
          OfflineKeeps(m);
          assert RefOk(m, ref) && EventOk(m, m.next);
        case DispatchFailedEvent(_) => DispatchFailedKeeps(m);
      }
      if clean && (ev.OfflineEvent? || ev.DispatchFailedEvent?) { RemoveKeeps(TickOne(m, false).m, ev.id); }
    }
  }

  // ---------------------------------------------------------------- recovery

  predicate Distinct(workers: seq<Persisted>) {
    forall i, j :: 0 <= i < j < |workers| ==> workers[i].id != workers[j].id
  }

  predicate Unfinished(workers: seq<Persisted>, id: WorkerID) {
    exists i :: 0 <= i < |workers| && workers[i].id == id && workers[i].status.code != StatusFinished
  }

  predicate Empty(m: Manager) {
    m.heap == [] && m.entries == map[] && m.recovered == 0
  }

  lemma UnfinishedSnoc(workers: seq<Persisted>, w: Persisted, id: WorkerID)
    ensures Unfinished(workers + [w], id)
       <==> Unfinished(workers, id) || (w.id == id && w.status.code != StatusFinished)
  {
    var all := workers + [w];
    assert forall i :: 0 <= i < |workers| ==> all[i] == workers[i];
    assert all[|workers|] == w;
  }

  /** Loading gives every unfinished worker one waiting entry, and nothing else. */
  lemma {:induction false} LoadedShape(m: Manager, workers: seq<Persisted>)
    requires m.Valid() && Empty(m) && Distinct(workers)
    ensures var l := LoadEntries(m, workers);
      && l == m.(heap := l.heap, entries := l.entries, recovered := |l.heap|)
      && (forall id :: id in l.entries <==> Unfinished(workers, id))
      && (forall r: nat :: r < |l.heap| ==> l.heap[r].state == Wait && !l.heap[r].finished && IsMapped(l, r))
    decreases |workers|
  {
    if |workers| > 0 {
      var n := |workers| - 1;
      var head, w := workers[..n], workers[n];
      LoadedShape(m, head);
      assert workers == head + [w];
      assert !Unfinished(head, w.id);
      forall id ensures id in LoadEntries(m, workers).entries <==> Unfinished(workers, id) {
        UnfinishedSnoc(head, w, id);
      }
    }
  }

  lemma LoadKeeps(m: Manager, workers: seq<Persisted>)
    requires Inv(m) && m.phase == LoadingMeta && Distinct(workers)
    ensures var r := LoadPersisted(m, workers); r.Went? && Inv(r.m)
    ensures LoadPersisted(m, workers).m.phase == Ready <==> LoadPersisted(m, workers).m.heap == []
  {
    LoadedShape(m, workers);
    var l := LoadEntries(m, workers);
    var m' := LoadPersisted(m, workers).m;
    if m'.heap != [] { assert IsMapped(l, 0); }
    forall r: nat | r < |m'.heap| ensures RefOk(m', r) {
      assert IsMapped(l, r);
      assert StageOf(m.log, r) == Fresh;
      NeverCalled(m.log, r);
    }
    forall i: nat | i < |m'.events| ensures EventOk(m', i) { assert m.events[i].StatusEvent?; }
  }

  /** What has made no callback yet has made no online callback. */
  lemma {:induction false} NeverCalled(log: Log, ref: nat)
    ensures StageOf(log, ref) == Fresh ==> !EverOnlined(log, ref)
    decreases log
  {
    if log.Called? { NeverCalled(log.before, ref); }
  }

  lemma SweepKeeps(m: Manager)
    requires Inv(m) && m.phase == WaitingHeartbeat
    ensures Inv(FinishRecover(m))
  {
    var m' := FinishRecover(m);
    forall r: nat | r < |m'.heap| ensures RefOk(m', r) {
      assert RefOk(m, r);
      if m.heap[r].state == Offline && !m.errored { SameQueue(m, m', r); }
    }
    forall i: nat | i < |m'.events| ensures EventOk(m', i) { assert EventOk(m, i); }
  }

  // ---------------------------------------------------------------- every run

  /** Who may call what: no worker is created or aborted before recovery is over. */
  predicate Allowed(m: Manager, s: Step) {
    match s
    case StartStep(_, _, _) => m.phase == Ready
    case AbortStep(_) => m.phase == Ready
    case LoadStep(workers) => Distinct(workers)
    case SweepStep => m.phase == WaitingHeartbeat
    case _ => true
  }

  /** The panics that remain, and whose doing each of them is. */
  predicate Hazard(m: Manager, s: Step)
    requires m.Valid()
  {
    match s
    case HeartbeatStep(_, epoch, _, _, _) => m.phase != LoadingMeta && epoch > m.epoch
    case StatusStep(_, epoch, _) => epoch > m.epoch
    case TickStep(clean) => CleansSuccessor(m, clean)
    case StartStep(id, _, _) => id in m.entries
    case LoadStep(_) => m.phase != LoadingMeta
    case RemoveStep(id) => id in m.entries && m.heap[m.entries[id]].state != Tombstone
    case _ => false
  }

  /** Every allowed step keeps the invariant and panics exactly in case of a hazard. */
  lemma StepKeeps(m: Manager, s: Step)
    requires Inv(m) && Allowed(m, s)
    ensures var r := Apply(m, s); (r.Panicked? <==> Hazard(m, s)) && (r.Went? ==> Inv(r.m))
    ensures Apply(m, s).Panicked? ==> Apply(m, s).why !in {UnreachableMark, ClosedTwice}
  {
    match s
    case HeartbeatStep(id, epoch, finished, node, now) => HeartbeatKeeps(m, id, epoch, finished, node, now);
    case StatusStep(id, epoch, status) =>
      if epoch == m.epoch && id in m.entries {
        EnqueueKeeps(m, StatusEvent(id, m.entries[id], m.heap[m.entries[id]].executor, status));
      }
    case TickStep(clean) => TickKeeps(m, clean);
    case StartStep(id, executor, now) => if id !in m.entries { StartKeeps(m, id, executor, now); }
    case AbortStep(id) => EnqueueKeeps(m, DispatchFailedEvent(id));
    case CheckStep(id, now) => CheckKeeps(m, id, now);
    case LoadStep(workers) => if m.phase == LoadingMeta { LoadKeeps(m, workers); }
    case SweepStep => SweepKeeps(m);
    case RemoveStep(id) => RemoveKeeps(m, id);
  }

  /** A run so far, its latest step outermost. */
  datatype Trace = NoSteps | Then(before: Trace, step: Step)

  /** Where a run leads; nothing follows a panic. */
  function Play(m: Manager, t: Trace): (r: Outcome)
    requires m.Valid()
    ensures r.Went? ==> r.m.Valid()
  {
    match t
    case NoSteps => Went(m)
    case Then(before, s) =>
      var r := Play(m, before);
      if r.Went? then Apply(r.m, s) else r
  }

  predicate AllowedRun(m: Manager, t: Trace)
    requires m.Valid()
  {
    match t
    case NoSteps => true
    case Then(before, s) => AllowedRun(m, before) && (Play(m, before).Went? ==> Allowed(Play(m, before).m, s))
  }

  /** Every state of every allowed run satisfies the invariant, and no entry is ever marked wrongly. */
  lemma {:induction false} RunKeeps(m: Manager, t: Trace)
    requires Inv(m) && AllowedRun(m, t)
    ensures var r := Play(m, t);
      if r.Went? then Inv(r.m) else r.why !in {UnreachableMark, ClosedTwice}
    decreases t
  {
    if t.Then? {
      RunKeeps(m, t.before);
      if Play(m, t.before).Went? { StepKeeps(Play(m, t.before).m, t.step); }
    }
  }
}
