/** What a master finds after InitAfterRecover, in terms of the metastore and of the pings received. */
module Recovery {
  import opened Timeouts
  import opened ManagerModel
  import opened ManagerInvariant

  predicate IsPing(s: Step, id: WorkerID, epoch: int) {
    s.HeartbeatStep? && s.id == id && s.epoch == epoch
  }

  predicate Pinged(t: Trace, id: WorkerID, epoch: int) {
    t.Then? && (Pinged(t.before, id, epoch) || IsPing(t.step, id, epoch))
  }

  predicate PingedFinished(t: Trace, id: WorkerID, epoch: int) {
    t.Then? && (PingedFinished(t.before, id, epoch) || (IsPing(t.step, id, epoch) && t.step.finished))
  }

  /** When the last ping came, and from which node the first. */
  function LastPing(t: Trace, id: WorkerID, epoch: int): Time
    requires Pinged(t, id, epoch)
  {
    if IsPing(t.step, id, epoch) then t.step.now else LastPing(t.before, id, epoch)
  }

  function FirstNode(t: Trace, id: WorkerID, epoch: int): ExecutorID
    requires Pinged(t, id, epoch)
  {
    if Pinged(t.before, id, epoch) then FirstNode(t.before, id, epoch) else t.step.node
  }

  /** A ping keeps the entry for the worker time-out and the grace, and the first one tells where the worker is. */
  predicate Renewed(e: Entry, t: Trace, epoch: int, timeouts: TimeoutConfig) {
    Pinged(t, e.id, epoch) ==>
      && e.expireAt == LastPing(t, e.id, epoch) + timeouts.workerTimeout + timeouts.graceful
      && e.executor == FirstNode(t, e.id, epoch)
  }

  predicate NoSweep(t: Trace) {
    t.Then? ==> NoSweep(t.before) && !t.step.SweepStep?
  }

  /** The state of an entry follows the pings. */
  predicate Tracks(m: Manager, ref: nat, t: Trace)
    requires ref < |m.heap|
  {
    var e := m.heap[ref];
    && IsMapped(m, ref)
    && e.state == (if Pinged(t, e.id, m.epoch) then Normal else Wait)
    && e.finished == PingedFinished(t, e.id, m.epoch)
    && Renewed(e, t, m.epoch, m.timeouts)
  }

  predicate SameEntry(e: Entry, e': Entry) {
    e' == e.(status := e'.status)
  }

  /** What no step changes while heartbeats are awaited. */
  predicate SameFrame(m: Manager, m': Manager) {
    && m'.phase == m.phase && m'.epoch == m.epoch && m'.timeouts == m.timeouts
    && m'.entries == m.entries && |m'.heap| == |m.heap|
  }

  predicate SameEntries(m: Manager, m': Manager) {
    && SameFrame(m, m')
    && forall r: nat :: r < |m.heap| ==> SameEntry(m.heap[r], m'.heap[r])
  }

  lemma WaitingTick(m: Manager, clean: bool)
    requires m.Valid() && (forall i :: 0 <= i < |m.events| ==> m.events[i].StatusEvent?)
    ensures TickOne(m, clean).Went? && SameEntries(m, TickOne(m, clean).m)
  {}

  /** While heartbeats are awaited, only a heartbeat changes the state of an entry, its own. */
  lemma WaitingStep(m: Manager, s: Step)
    requires m.Valid() && PhaseOk(m) && m.phase == WaitingHeartbeat && Allowed(m, s)
    requires !s.SweepStep? && !s.HeartbeatStep?
    requires forall id :: id in m.entries ==> m.heap[m.entries[id]].state != Tombstone
    requires Apply(m, s).Went?
    ensures SameEntries(m, Apply(m, s).m)
  {
    if s.TickStep? { WaitingTick(m, s.clean); }
  }

  /** What a step does to an entry, by the pings it brings. */
  predicate Follows(e: Entry, e': Entry, s: Step, epoch: int, timeouts: TimeoutConfig) {
    && e'.id == e.id
    && e'.expireAt
       == (if IsPing(s, e.id, epoch) then s.now + timeouts.workerTimeout + timeouts.graceful else e.expireAt)
    && e'.executor == (if IsPing(s, e.id, epoch) && e.state == Wait then s.node else e.executor)
    && e'.state == (if IsPing(s, e.id, epoch) then Normal else e.state)
    && e'.finished == (e.finished || (IsPing(s, e.id, epoch) && s.finished))
  }

  lemma WaitingPing(m: Manager, s: Step, r: nat)
    requires m.Valid() && m.phase == WaitingHeartbeat && s.HeartbeatStep? && Apply(m, s).Went?
    requires r < |m.heap| && IsMapped(m, r) && (m.heap[r].state == Wait || m.heap[r].state == Normal)
    requires IsPing(s, m.heap[r].id, m.epoch)
    ensures SameFrame(m, Apply(m, s).m) && Follows(m.heap[r], Apply(m, s).m.heap[r], s, m.epoch, m.timeouts)
  {}

  lemma WaitingOther(m: Manager, s: Step, r: nat)
    requires m.Valid() && m.phase == WaitingHeartbeat && s.HeartbeatStep? && Apply(m, s).Went?
    requires r < |m.heap| && IsMapped(m, r) && !IsPing(s, m.heap[r].id, m.epoch)
    ensures SameFrame(m, Apply(m, s).m) && Apply(m, s).m.heap[r] == m.heap[r]
  {}

  lemma WaitingHeartbeatStep(m: Manager, s: Step, r: nat)
    requires m.Valid() && m.phase == WaitingHeartbeat && s.HeartbeatStep? && Apply(m, s).Went?
    requires r < |m.heap| && IsMapped(m, r) && (m.heap[r].state == Wait || m.heap[r].state == Normal)
    ensures SameFrame(m, Apply(m, s).m) && Follows(m.heap[r], Apply(m, s).m.heap[r], s, m.epoch, m.timeouts)
  {
    if IsPing(s, m.heap[r].id, m.epoch) { WaitingPing(m, s, r); } else { WaitingOther(m, s, r); }
  }

  /** Loaded as `m1`, then the steps `t`: where things stand. */
  ghost predicate Awaiting(m1: Manager, m: Manager, t: Trace) {
    && Inv(m) && m.phase == WaitingHeartbeat
    && m.epoch == m1.epoch && m.timeouts == m1.timeouts && m.entries == m1.entries
    && forall r: nat :: r < |m.heap| ==> Tracks(m, r, t)
  }

  /** An entry that follows a step follows the pings with it. */
  lemma TracksStep(m: Manager, m': Manager, r: nat, t: Trace, s: Step)
    requires r < |m.heap| && Tracks(m, r, t) && SameFrame(m, m')
    requires if s.HeartbeatStep? then Follows(m.heap[r], m'.heap[r], s, m.epoch, m.timeouts)
             else SameEntry(m.heap[r], m'.heap[r])
    ensures Tracks(m', r, Then(t, s))
  {}

  lemma WaitingAny(m1: Manager, m: Manager, t: Trace, s: Step)
    requires Awaiting(m1, m, t) && Allowed(m, s) && !s.SweepStep? && !s.HeartbeatStep? && Apply(m, s).Went?
    ensures SameEntries(m, Apply(m, s).m)
  {
    forall id | id in m.entries ensures m.heap[m.entries[id]].state != Tombstone {
      assert Tracks(m, m.entries[id], t);
    }
    WaitingStep(m, s);
  }

  lemma AwaitingStep(m1: Manager, m: Manager, t: Trace, s: Step)
    requires Awaiting(m1, m, t) && m.heap != [] && Allowed(m, s) && !s.SweepStep? && Apply(m, s).Went?
    ensures Awaiting(m1, Apply(m, s).m, Then(t, s)) && Apply(m, s).m.heap != []
  {
    StepKeeps(m, s);
    var m' := Apply(m, s).m;
    assert Tracks(m, 0, t);
    if s.HeartbeatStep? { WaitingHeartbeatStep(m, s, 0); } else { WaitingAny(m1, m, t, s); }
    forall r: nat | r < |m'.heap| ensures Tracks(m', r, Then(t, s)) {
      assert Tracks(m, r, t);
      if s.HeartbeatStep? { WaitingHeartbeatStep(m, s, r); } else { assert SameEntry(m.heap[r], m'.heap[r]); }
      TracksStep(m, m', r, t, s);
    }
  }

  lemma {:induction false} WaitingTracks(m1: Manager, t: Trace)
    requires m1.Valid() && Awaiting(m1, m1, NoSteps) && m1.heap != []
    requires AllowedRun(m1, t) && NoSweep(t) && Play(m1, t).Went?
    ensures Awaiting(m1, Play(m1, t).m, t) && Play(m1, t).m.heap != []
    decreases t
  {
    if t.Then? {
      WaitingTracks(m1, t.before);
      AwaitingStep(m1, Play(m1, t.before).m, t.before, t.step);
    }
  }

  /**
   After recovery the entries are exactly the persisted workers not finished. An entry is a tombstone
   iff no ping of this epoch arrived between load and sweep, or one that said the worker has
   finished; otherwise the worker is normal, on the node its first ping came from, and expires after the
   time-out and the grace from its last.
   */
  lemma {:induction false} RecoveredEntries(m0: Manager, workers: seq<Persisted>, t: Trace, id: WorkerID)
    requires Inv(m0) && m0.phase == LoadingMeta && Distinct(workers)
    requires LoadPersisted(m0, workers).m.phase == WaitingHeartbeat
    requires var m1 := LoadPersisted(m0, workers).m;
      AllowedRun(m1, t) && NoSweep(t) && Play(m1, t).Went?
    ensures var m := FinishRecover(Play(LoadPersisted(m0, workers).m, t).m);
      && m.phase == Ready
      && (id in m.entries <==> Unfinished(workers, id))
      && (id in m.entries ==>
            m.heap[m.entries[id]].state
            == if !Pinged(t, id, m0.epoch) || PingedFinished(t, id, m0.epoch) then Tombstone else Normal)
      && (id in m.entries ==> Renewed(m.heap[m.entries[id]], t, m0.epoch, m0.timeouts))
  {
    var m1 := LoadPersisted(m0, workers).m;
    LoadedAwaits(m0, workers);
    WaitingTracks(m1, t);
    var m2 := Play(m1, t).m;
    if id in m2.entries { SweptTracks(m2, t, id); }
  }

  lemma SweptTracks(m: Manager, t: Trace, id: WorkerID)
    requires m.Valid() && id in m.entries && Tracks(m, m.entries[id], t)
    ensures var m', e := FinishRecover(m), FinishRecover(m).heap[m.entries[id]];
      && m'.entries == m.entries && e.id == id && Renewed(e, t, m.epoch, m.timeouts)
      && e.state == (if !Pinged(t, id, m.epoch) || PingedFinished(t, id, m.epoch) then Tombstone else Normal)
  {}

  /**
   So a worker that has pinged during recovery, without saying that it has finished, survives exactly the
   checks up to the time-out and the grace after its last ping.
   */
  lemma {:induction false} RecoveredSurvivesIff(
    m0: Manager, workers: seq<Persisted>, t: Trace, id: WorkerID, now: Time)
    requires Inv(m0) && m0.phase == LoadingMeta && Distinct(workers) && Unfinished(workers, id)
    requires LoadPersisted(m0, workers).m.phase == WaitingHeartbeat
    requires var m1 := LoadPersisted(m0, workers).m;
      AllowedRun(m1, t) && NoSweep(t) && Play(m1, t).Went?
    requires Pinged(t, id, m0.epoch) && !PingedFinished(t, id, m0.epoch)
    ensures var r := CheckEntry(FinishRecover(Play(LoadPersisted(m0, workers).m, t).m), id, now);
      && r.Went? && id in r.m.entries
      && r.m.heap[r.m.entries[id]].state
         == if now <= LastPing(t, id, m0.epoch) + m0.timeouts.workerTimeout + m0.timeouts.graceful
            then Normal else Offline
  {
    RecoveredEntries(m0, workers, t, id);
    LoadedAwaits(m0, workers);
    WaitingTracks(LoadPersisted(m0, workers).m, t);
    var m2 := Play(LoadPersisted(m0, workers).m, t).m;
    assert Tracks(m2, m2.entries[id], t);
    CheckRecovered(FinishRecover(m2), id, now);
  }

  lemma CheckRecovered(m: Manager, id: WorkerID, now: Time)
    requires m.Valid() && m.phase == Ready && id in m.entries
    requires m.heap[m.entries[id]].state == Normal && !m.heap[m.entries[id]].finished
    ensures var r := CheckEntry(m, id, now);
      && r.Went? && id in r.m.entries
      && r.m.heap[r.m.entries[id]].state == if now <= m.heap[m.entries[id]].expireAt then Normal else Offline
  {}

  lemma LoadedAwaits(m0: Manager, workers: seq<Persisted>)
    requires Inv(m0) && m0.phase == LoadingMeta && Distinct(workers)
    requires LoadPersisted(m0, workers).m.phase == WaitingHeartbeat
    ensures var m1 := LoadPersisted(m0, workers).m;
      && Awaiting(m1, m1, NoSteps) && m1.heap != [] && m1.epoch == m0.epoch && m1.timeouts == m0.timeouts
      && forall id :: id in m1.entries <==> Unfinished(workers, id)
  {
    LoadKeeps(m0, workers);
    LoadedShape(m0, workers);
    var m1 := LoadPersisted(m0, workers).m;
    forall r: nat | r < |m1.heap| ensures Tracks(m1, r, NoSteps) {
      assert IsMapped(LoadEntries(m0, workers), r);
    }
  }

  /** With no unfinished worker in the metastore the manager is ready at once, without entries. */
  lemma NothingToRecover(m0: Manager, workers: seq<Persisted>)
    requires Inv(m0) && m0.phase == LoadingMeta && Distinct(workers)
    ensures var m1 := LoadPersisted(m0, workers).m;
      && (m1.phase == Ready <==> forall id :: !Unfinished(workers, id))
      && (m1.phase == Ready ==> m1.entries == map[])
      && (m1.phase != Ready ==> m1.phase == WaitingHeartbeat)
  {
    LoadedShape(m0, workers);
    var l := LoadEntries(m0, workers);
    if |l.entries| == 0 {
      assert l.entries == map[];
    } else {
      var id :| id in l.entries;
      assert Unfinished(workers, id);
    }
  }
}
