/**
 What a step of the WorkerManager does to one entry and to the event queue, read off the messages and
 the clock, and what an entry therefore holds after a run.
 */
module EntryLaws {
  import opened Timeouts
  import opened ManagerModel
  import opened ManagerInvariant

  // ---------------------------------------------------------------- one entry

  /** A ping of this epoch for the incarnation: its ID is mapped to it, and the master has loaded. */
  predicate PingFor(m: Manager, s: Step, ref: nat)
    requires ref < |m.heap|
  {
    s.HeartbeatStep? && s.epoch == m.epoch && s.id == m.heap[ref].id && IsMapped(m, ref) && m.phase != LoadingMeta
  }

  /** The first ping of a worker that was created, or that is awaited after a failover. */
  predicate FirstPingFor(m: Manager, s: Step, ref: nat)
    requires ref < |m.heap|
  {
    PingFor(m, s, ref) && m.heap[ref].state == (if m.phase == WaitingHeartbeat then Wait else Created)
  }

  /** A check for the incarnation that finds it alive, and too late or finished. */
  predicate CheckTakesDown(m: Manager, s: Step, ref: nat)
    requires ref < |m.heap|
  {
    var e := m.heap[ref];
    && s.CheckStep? && m.phase == Ready && s.id == e.id && IsMapped(m, ref)
    && e.state != Offline && e.state != Tombstone && (e.expireAt < s.now || e.finished)
  }

  /** The event that is delivered is a status for the incarnation. */
  predicate DeliversStatus(m: Manager, s: Step, ref: nat)
    requires ref < |m.heap|
  {
    && s.TickStep? && m.next < |m.events| && m.events[m.next].StatusEvent? && m.events[m.next].ref == ref
    && m.heap[ref].state != Tombstone
  }

  predicate Buries(m: Manager, s: Step, ref: nat)
    requires ref < |m.heap|
  {
    || (s.TickStep? && m.next < |m.events| && m.events[m.next].OfflineEvent? && m.events[m.next].ref == ref)
    || (s.SweepStep? && IsMapped(m, ref) && (m.heap[ref].state == Wait || m.heap[ref].finished))
  }

  /** The entry after the step, field by field. */
  predicate EntryAfter(m: Manager, s: Step, ref: nat, e': Entry)
    requires ref < |m.heap|
  {
    var e := m.heap[ref];
    && e'.id == e.id
    && e'.expireAt == (if PingFor(m, s, ref) then s.now + m.timeouts.workerTimeout + m.timeouts.graceful else e.expireAt)
    && e'.finished == (e.finished || (PingFor(m, s, ref) && s.finished))
    && e'.executor == (if FirstPingFor(m, s, ref) then s.node else e.executor)
    && e'.status == (if DeliversStatus(m, s, ref) then m.events[m.next].status else e.status)
    && e'.state == (if FirstPingFor(m, s, ref) then Normal
                    else if CheckTakesDown(m, s, ref) then Offline
                    else if Buries(m, s, ref) then Tombstone
                    else e.state)
  }

  lemma FirstHeartbeat(m: Manager, s: Step, ref: nat)
    requires m.Valid() && s.HeartbeatStep? && Apply(m, s).Went? && ref < |m.heap| && FirstPingFor(m, s, ref)
    ensures ref < |Apply(m, s).m.heap| && EntryAfter(m, s, ref, Apply(m, s).m.heap[ref])
  {}

  lemma LaterHeartbeat(m: Manager, s: Step, ref: nat)
    requires m.Valid() && s.HeartbeatStep? && Apply(m, s).Went? && ref < |m.heap|
    requires PingFor(m, s, ref) && !FirstPingFor(m, s, ref)
    ensures ref < |Apply(m, s).m.heap| && EntryAfter(m, s, ref, Apply(m, s).m.heap[ref])
  {}

  lemma OtherHeartbeat(m: Manager, s: Step, ref: nat)
    requires m.Valid() && s.HeartbeatStep? && Apply(m, s).Went? && ref < |m.heap| && !PingFor(m, s, ref)
    ensures ref < |Apply(m, s).m.heap| && Apply(m, s).m.heap[ref] == m.heap[ref]
  {}

  lemma HeartbeatEntry(m: Manager, s: Step, ref: nat)
    requires m.Valid() && s.HeartbeatStep? && Apply(m, s).Went? && ref < |m.heap|
    ensures ref < |Apply(m, s).m.heap| && EntryAfter(m, s, ref, Apply(m, s).m.heap[ref])
  {
    if FirstPingFor(m, s, ref) {
      FirstHeartbeat(m, s, ref);
    } else if PingFor(m, s, ref) {
      LaterHeartbeat(m, s, ref);
    } else {
      OtherHeartbeat(m, s, ref);
    }
  }

  lemma HookEntry(m: Manager, ref: nat) returns (hooked: Outcome)
    requires m.Valid() && m.next < |m.events| && ref < |m.heap|
    ensures hooked == RunHook(m.(next := m.next + 1), m.events[m.next])
    ensures hooked.Went? ==>
      hooked.m.Valid() && ref < |hooked.m.heap| && EntryAfter(m, TickStep(false), ref, hooked.m.heap[ref])
  {
    hooked := RunHook(m.(next := m.next + 1), m.events[m.next]);
  }

  lemma TickEntry(m: Manager, clean: bool, ref: nat)
    requires m.Valid() && TickOne(m, clean).Went? && ref < |m.heap|
    ensures ref < |TickOne(m, clean).m.heap| && EntryAfter(m, TickStep(clean), ref, TickOne(m, clean).m.heap[ref])
  {
    if m.next < |m.events| {
      var hooked := HookEntry(m, ref);
      TickIs(m, clean, hooked);
    }
  }

  lemma CheckEntryLaw(m: Manager, s: Step, ref: nat)
    requires m.Valid() && s.CheckStep? && Apply(m, s).Went? && ref < |m.heap|
    ensures ref < |Apply(m, s).m.heap| && EntryAfter(m, s, ref, Apply(m, s).m.heap[ref])
  {
    if s.id in m.entries && m.entries[s.id] == ref {
      assert m.heap[ref].id == s.id;
    }
  }

  lemma {:induction false} LoadKeepsOld(m: Manager, workers: seq<Persisted>)
    requires m.Valid()
    ensures m.heap <= LoadEntries(m, workers).heap
    decreases |workers|
  {
    if |workers| > 0 { LoadKeepsOld(m, workers[..|workers| - 1]); }
  }

  /** Every step changes an entry only as its messages, the clock and the delivered event say. */
  lemma StepEntry(m: Manager, s: Step, ref: nat)
    requires m.Valid() && Apply(m, s).Went? && ref < |m.heap|
    ensures ref < |Apply(m, s).m.heap| && EntryAfter(m, s, ref, Apply(m, s).m.heap[ref])
  {
    match s
    case HeartbeatStep(_, _, _, _, _) => HeartbeatEntry(m, s, ref);
    case TickStep(clean) => TickEntry(m, clean, ref);
    case CheckStep(_, _) => CheckEntryLaw(m, s, ref);
    case LoadStep(workers) => LoadKeepsOld(m, workers);
    case _ =>
  }

  // ---------------------------------------------------------------- new entries

  /** A worker is created with a lease from now, before any ping. */
  lemma StartedEntry(m: Manager, id: WorkerID, executor: ExecutorID, now: Time)
    requires m.Valid() && id !in m.entries
    ensures var r := Apply(m, StartStep(id, executor, now));
      && r.Went? && r.m.heap[..|m.heap|] == m.heap && r.m.entries == m.entries[id := |m.heap|]
      && r.m.heap[|m.heap|..] == [Entry(id, executor, now + m.timeouts.workerTimeout + m.timeouts.graceful, Created,
                                        false, WorkerStatus(StatusCreated, ""))]
  {}

  /** A persisted worker that has not finished is loaded with its persisted status, and awaited. */
  lemma {:induction false} LoadedEntry(m: Manager, workers: seq<Persisted>, i: nat)
    requires m.Valid() && Distinct(workers) && i < |workers| && workers[i].status.code != StatusFinished
    ensures HoldsLoaded(LoadEntries(m, workers), workers[i])
    decreases |workers|
  {
    var n := |workers| - 1;
    if i < n {
      var head := workers[..n];
      assert head[i] == workers[i];
      LoadedEntry(m, head, i);
      var e := Entry(workers[n].id, ExecutorID(""), 0, Wait, false, workers[n].status);
      BindKeepsLoaded(LoadEntries(m, head), e, workers[i]);
    }
  }

  predicate HoldsLoaded(m: Manager, w: Persisted) {
    && w.id in m.entries && m.entries[w.id] < |m.heap|
    && m.heap[m.entries[w.id]] == Entry(w.id, ExecutorID(""), 0, Wait, false, w.status)
  }

  lemma BindKeepsLoaded(m: Manager, e: Entry, w: Persisted)
    requires m.Valid() && HoldsLoaded(m, w) && e.id != w.id
    ensures HoldsLoaded(Bind(m, e), w)
  {}

  // ---------------------------------------------------------------- the event queue

  /** Why an offline callback says the worker is gone: by the status code it last reported. */
  function ReasonFor(code: StatusCode): OfflineReason {
    if code == StatusFinished then WorkerFinish else if code == StatusStopped then WorkerStop else WorkerOffline
  }

  /** The event a step gives rise to. */
  function Raised(m: Manager, s: Step): seq<Event>
    requires m.Valid()
  {
    if s.AbortStep? then [DispatchFailedEvent(s.id)]
    else if !(s.HeartbeatStep? || s.StatusStep? || s.CheckStep?) || s.id !in m.entries then []
    else
      var ref := m.entries[s.id];
      if s.HeartbeatStep? && FirstPingFor(m, s, ref) && m.phase == Ready then [OnlineEvent(s.id, ref, s.node)]
      else if s.StatusStep? && s.epoch == m.epoch then [StatusEvent(s.id, ref, m.heap[ref].executor, s.status)]
      else if s.CheckStep? && CheckTakesDown(m, s, ref) then [OfflineEvent(s.id, ref, ReasonFor(m.heap[ref].status.code))]
      else []
  }

  /** The event goes to the end of the queue if that holds less than 1024, and is an error otherwise. */
  predicate QueueAfter(m: Manager, s: Step, m': Manager)
    requires m.Valid()
  {
    var room := |m.events| - m.next < 1024;
    && m'.events == (if room then m.events + Raised(m, s) else m.events)
    && m'.errored == (m.errored || (Raised(m, s) != [] && !room))
    && m'.next == (if s.TickStep? && m.next < |m.events| then m.next + 1 else m.next)
  }

  lemma HeartbeatQueue(m: Manager, s: Step)
    requires m.Valid() && s.HeartbeatStep? && Apply(m, s).Went?
    ensures QueueAfter(m, s, Apply(m, s).m)
  {}

  lemma TickQueue(m: Manager, clean: bool)
    requires m.Valid() && TickOne(m, clean).Went?
    ensures QueueAfter(m, TickStep(clean), TickOne(m, clean).m)
  {
    if m.next < |m.events| {
      var hooked := HookQueue(m);
      TickIs(m, clean, hooked);
    }
  }

  lemma HookQueue(m: Manager) returns (hooked: Outcome)
    requires m.Valid() && m.next < |m.events|
    ensures hooked == RunHook(m.(next := m.next + 1), m.events[m.next])
    ensures hooked.Went? ==> hooked.m.Valid() && QueueAfter(m, TickStep(false), hooked.m)
  {
    hooked := RunHook(m.(next := m.next + 1), m.events[m.next]);
  }

  lemma CheckQueue(m: Manager, s: Step)
    requires m.Valid() && s.CheckStep? && Apply(m, s).Went?
    ensures QueueAfter(m, s, Apply(m, s).m)
  {}

  lemma {:induction false} LoadQueue(m: Manager, workers: seq<Persisted>)
    requires m.Valid()
    ensures var m' := LoadEntries(m, workers); m'.events == m.events && m'.next == m.next && m'.errored == m.errored
    decreases |workers|
  {
    if |workers| > 0 { LoadQueue(m, workers[..|workers| - 1]); }
  }

  /** Every step queues exactly the event that its message or the clock gives rise to. */
  lemma StepQueue(m: Manager, s: Step)
    requires m.Valid() && Apply(m, s).Went?
    ensures QueueAfter(m, s, Apply(m, s).m)
  {
    match s
    case HeartbeatStep(_, _, _, _, _) => HeartbeatQueue(m, s);
    case TickStep(clean) => TickQueue(m, clean);
    case CheckStep(_, _) => CheckQueue(m, s);
    case LoadStep(workers) => LoadQueue(m, workers);
    case _ =>
  }

  // ---------------------------------------------------------------- the status of an entry, over a run

  /** The status last delivered to an incarnation in the run, or the one it had when it came. */
  function LastDelivered(m0: Manager, t: Trace, ref: nat): WorkerStatus
    requires m0.Valid() && Play(m0, t).Went? && ref < |Play(m0, t).m.heap|
  {
    if t.NoSteps? then m0.heap[ref].status
    else
      var m := Play(m0, t.before).m;
      if ref >= |m.heap| then Play(m0, t).m.heap[ref].status
      else if DeliversStatus(m, t.step, ref) then m.events[m.next].status
      else LastDelivered(m0, t.before, ref)
  }

  /** A status message of this epoch in the run, when its ID was mapped to the incarnation. */
  predicate WasSent(m0: Manager, t: Trace, ref: nat, status: WorkerStatus)
    requires m0.Valid() && Play(m0, t).Went?
  {
    t.Then?
    && var m := Play(m0, t.before).m;
       || WasSent(m0, t.before, ref, status)
       || (t.step.StatusStep? && t.step.epoch == m.epoch && t.step.status == status
           && t.step.id in m.entries && m.entries[t.step.id] == ref)
  }

  /** In every run an entry holds the status last delivered to it. */
  lemma {:induction false} StatusIsLastDelivered(m0: Manager, t: Trace, ref: nat)
    requires m0.Valid() && Play(m0, t).Went? && ref < |Play(m0, t).m.heap|
    ensures Play(m0, t).m.heap[ref].status == LastDelivered(m0, t, ref)
    decreases t
  {
    if t.Then? {
      var m := Play(m0, t.before).m;
      if ref < |m.heap| {
        StatusIsLastDelivered(m0, t.before, ref);
        StepEntry(m, t.step, ref);
      }
    }
  }

  /** In every run a status that is queued was sent in the run, to the incarnation it is queued for. */
  lemma {:induction false} QueuedWasSent(m0: Manager, t: Trace, i: nat)
    requires m0.Valid() && Play(m0, t).Went? && m0.events == []
    requires i < |Play(m0, t).m.events| && Play(m0, t).m.events[i].StatusEvent?
    ensures var ev := Play(m0, t).m.events[i]; WasSent(m0, t, ev.ref, ev.status)
    decreases t
  {
    if t.Then? {
      var m := Play(m0, t.before).m;
      StepQueue(m, t.step);
      if i < |m.events| { QueuedWasSent(m0, t.before, i); }
    }
  }
}
