/** Runs of the job manager that are in time, which do no harm, and runs that are not, which do. */
module JobRuns {
  import opened Timeouts
  import opened ManagerModel
  import opened ManagerInvariant
  import opened JobStates
  import opened JobWorkers
  import opened JobSafety
  import opened JobHarm

  /** createWorkerTimeout */
  const CREATE_WORKER_TIMEOUT: Time := 10 * SECOND

  // ---------------------------------------------------------------- in time

  /** A failed confirmation is known before createWorkerTimeout is over, and pings come from the current incarnation. */
  predicate InTime(c: Cluster, a: Action) {
    match a
    case ConfirmFails(k) => StageIs(c, k, true) ==> c.now <= c.dispatches[k].stage.at + CREATE_WORKER_TIMEOUT
    case Ping(id, _, _) => id in c.m.entries ==> c.m.entries[id] in c.running
    case _ => true
  }

  ghost predicate AlwaysInTime(h: History) {
    h.After? ==> AlwaysInTime(h.before) && InTime(Now(h.before), h.action)
  }

  /** The lease is the one the entry was created with; it is Created, or has expired. */
  predicate AsCreated(c: Cluster, e: Entry, at: Time) {
    && e.expireAt == NextExpireTime(c.m.timeouts, at) && !e.finished
    && (e.state == Created || ((e.state == Offline || e.state == Tombstone) && e.expireAt < c.now))
  }

  /** Until its worker runs, an entry is as it was created. */
  ghost predicate Untouched(c: Cluster, k: nat)
    requires c.m.Valid() && k < |c.dispatches|
  {
    var d := c.dispatches[k];
    d.stage.Confirming? && d.stage.ref !in c.running ==>
      d.stage.ref < |c.m.heap| && AsCreated(c, c.m.heap[d.stage.ref], d.stage.at)
  }

  ghost predicate AllUntouched(c: Cluster) {
    c.m.Valid() && forall k: nat :: k < |c.dispatches| ==> Untouched(c, k)
  }

  /** An entry is the same but for its status, or has gone from Offline to Tombstone. */
  predicate Ages(e: Entry, e': Entry) {
    && e' == e.(state := e'.state, status := e'.status)
    && (e'.state == e.state || (e.state == Offline && e'.state == Tombstone))
  }

  lemma DeliverAges(c: Cluster, ref: nat)
    requires AtHead(c) && ref < |c.m.heap|
    ensures Delivered(c).Fine? && |Delivered(c).c.m.heap| == |c.m.heap| && Delivered(c).c.m.timeouts == c.m.timeouts
    ensures Ages(c.m.heap[ref], Delivered(c).c.m.heap[ref])
  {
    DeliverKeeps(c);
    if c.m.events[c.m.next].OfflineEvent? { OfflineShape(c); }
  }

  lemma DeliverUntouched(c: Cluster, k: nat)
    requires ClusterInv(c) && c.mode == Draining && k < |c.dispatches| && Untouched(c, k)
    ensures Do(c, Deliver).Fine? && Do(c, Deliver).c.m.Valid() && Do(c, Deliver).c.dispatches == c.dispatches
    ensures Untouched(Do(c, Deliver).c, k)
  {
    DeliverKeeps(c);
    if c.m.next < |c.m.events| && c.dispatches[k].stage.Confirming? && c.dispatches[k].stage.ref !in c.running {
      DeliverAges(c, c.dispatches[k].stage.ref);
    }
  }

  lemma EntryUntouched(c: Cluster, a: Action, k: nat)
    requires ClusterInv(c) && Possible(c, a) && InTime(c, a) && (a.Ping? || a.Check?)
    requires k < |c.dispatches| && Untouched(c, k)
    ensures Do(c, a).Fine? && Do(c, a).c.m.Valid() && Do(c, a).c.dispatches == c.dispatches
    ensures Untouched(Do(c, a).c, k)
  {
    if a.Ping? { HeartbeatKeeps(c.m, a.id, c.m.epoch, a.finished, a.node, c.now); } else { CheckKeeps(c.m, a.id, c.now); }
    if a.id in c.m.entries {
      if a.Ping? {
        PingShape(c.m, a.id, a.finished, a.node, c.now);
      } else {
        CheckShape(c.m, a.id, c.now);
      }
    }
  }

  lemma OtherUntouched(c: Cluster, a: Action, k: nat)
    requires ClusterInv(c) && Possible(c, a) && !a.Ping? && !a.Check? && !a.Deliver?
    requires Do(c, a).Fine? && Do(c, a).c.m.Valid() && k < |Do(c, a).c.dispatches|
    requires k < |c.dispatches| ==> Untouched(c, k)
    ensures Untouched(Do(c, a).c, k)
  {}

  /** In time is harmless: what fails has not been touched, and what is pinged has been accepted. */
  lemma InTimeIsHarmless(c: Cluster, a: Action)
    requires ClusterInv(c) && AllUntouched(c) && Possible(c, a) && InTime(c, a)
    requires CREATE_WORKER_TIMEOUT <= c.m.timeouts.workerTimeout + c.m.timeouts.graceful
    ensures Harmless(c, a)
  {
    if a.ConfirmFails? { assert Untouched(c, a.k); }
  }

  lemma ActionUntouched(c: Cluster, a: Action)
    requires ClusterInv(c) && AllUntouched(c) && Possible(c, a) && InTime(c, a) && Harmless(c, a)
    requires Do(c, a).Fine? && !Do(c, a).c.m.errored
    ensures AllUntouched(Do(c, a).c)
  {
    ActionKeeps(c, a);
    var c' := Do(c, a).c;
    forall k: nat | k < |c'.dispatches| ensures Untouched(c', k) {
      if k < |c.dispatches| { assert Untouched(c, k); }
      if a.Deliver? {
        DeliverUntouched(c, k);
      } else if a.Ping? || a.Check? {
        EntryUntouched(c, a, k);
      } else {
        OtherUntouched(c, a, k);
      }
    }
  }

  /** A run that is in time does no harm, if the time-outs leave room for createWorkerTimeout. */
  lemma {:induction false} InTimeNeverHarmed(h: History)
    requires IsHistory(h) && AlwaysInTime(h)
    requires CREATE_WORKER_TIMEOUT <= Now(h).m.timeouts.workerTimeout + Now(h).m.timeouts.graceful
    ensures NeverHarmed(h) && AllUntouched(Now(h))
    decreases h
  {
    if h.After? {
      SameTimeouts(Now(h.before), h.action);
      InTimeNeverHarmed(h.before);
      HistoryKeeps(h.before);
      InTimeIsHarmless(Now(h.before), h.action);
      ActionUntouched(Now(h.before), h.action);
    }
  }

  lemma SameTimeouts(c: Cluster, a: Action)
    requires c.m.Valid() && Possible(c, a) && Do(c, a).Fine?
    ensures Do(c, a).c.m.timeouts == c.m.timeouts
  {
    if a.Deliver? && c.m.next < |c.m.events| {
      if c.m.events[c.m.next].OfflineEvent? { TickTimeouts(c.m, true); } else { TickTimeouts(c.m, false); }
    }
  }

  lemma TickTimeouts(m: Manager, clean: bool)
    requires m.Valid() && TickOne(m, clean).Went?
    ensures TickOne(m, clean).m.timeouts == m.timeouts
  {}

  /** So in every run that is in time nothing fails. */
  lemma {:induction false} InTimeNothingFails(h: History, a: Action)
    requires IsHistory(h) && AlwaysInTime(h) && Possible(Now(h), a)
    requires CREATE_WORKER_TIMEOUT <= Now(h).m.timeouts.workerTimeout + Now(h).m.timeouts.graceful
    ensures Do(Now(h), a).Fine?
  {
    InTimeNeverHarmed(h);
    NothingFails(h, a);
  }

  // ---------------------------------------------------------------- out of time

  ghost predicate LeadsTo(h: History, c: Cluster) { IsHistory(h) && Now(h) == c }

  /** `longer` goes on from `h` with the failure of incarnation 0. */
  ghost predicate FailsNext(h: History, longer: History) {
    longer.After? && ((longer.before == h && longer.action == ConfirmFails(0)) || FailsNext(h, longer.before))
  }

  lemma OneMore(h: History, c: Cluster, a: Action, c': Cluster) returns (h': History)
    requires LeadsTo(h, c) && Possible(c, a) && Do(c, a) == Fine(c') && c'.m.Valid() && !c'.m.errored
    ensures h' == After(h, a, c') && LeadsTo(h', c') && (NeverHarmed(h') <==> NeverHarmed(h) && Harmless(c, a))
    ensures forall h0 :: FailsNext(h0, h) ==> FailsNext(h0, h')
  {
    h' := After(h, a, c');
  }

  /** One job, submitted and started, its dispatch being confirmed. */
  function StartedJob(timeouts: TimeoutConfig, id: WorkerID, node: ExecutorID, meta: JobMeta): Cluster {
    var m := BeforeStarting(NewManager(0, timeouts, true), id, node, 0).m;
    Cluster(m, JobDispatched(NO_JOBS, id, meta, false), 0, Draining, [Dispatch(id, Confirming(0, 0))], {id}, {}, {})
  }

  lemma StartedJobReached(timeouts: TimeoutConfig, id: WorkerID, node: ExecutorID, meta: JobMeta) returns (h: History)
    ensures LeadsTo(h, StartedJob(timeouts, id, node, meta)) && NeverHarmed(h)
  {
    var c0 := Cluster(NewManager(0, timeouts, true), NO_JOBS, 0, Draining, [], {}, {}, {});
    h := Empty(c0);
    var c1 := Do(c0, SubmitJob(id, meta)).c;
    h := OneMore(h, c0, SubmitJob(id, meta), c1);
    assert Do(c1, Start(0, node)) == Fine(StartedJob(timeouts, id, node, meta));
    h := OneMore(h, c1, Start(0, node), StartedJob(timeouts, id, node, meta));
  }

  /** Nothing is queued, and incarnations are known by their entries. */
  ghost predicate Quiet(c: Cluster) {
    && c.m.Valid() && c.m.phase == Ready && c.m.next == |c.m.events| && !c.m.errored && c.mode == Draining
    && forall ref :: ref in c.running || ref in c.failed ==> ref < |c.m.heap|
  }

  /** The job has the entry `ref`, in the given state. */
  ghost predicate Has(c: Cluster, id: WorkerID, ref: nat, state: EntryState) {
    && Quiet(c) && id in c.m.entries && c.m.entries[id] == ref && c.m.heap[ref].state == state
    && OfflineReasonOf(c.m.heap[ref].status) == WorkerOffline
  }

  /** A job whose entry is new, with the goroutine `k` waiting for its confirmation. */
  ghost predicate Waits(c: Cluster, id: WorkerID, ref: nat, k: nat) {
    && Has(c, id, ref, Created) && id in c.jobs.waitAck && id !in c.jobs.online && id !in c.jobs.pending
    && StageIs(c, k, true) && c.dispatches[k] == Dispatch(id, Confirming(ref, c.dispatches[k].stage.at))
    && Undecided(c, ref)
  }

  /** The same goroutines, or more, and the same incarnations have run or failed. */
  predicate Sequel(c: Cluster, c': Cluster) {
    && c.dispatches <= c'.dispatches && c'.running == c.running && c'.failed == c.failed
    && |c.m.heap| <= |c'.m.heap| && (forall ref: nat :: ref < |c.m.heap| ==> c'.m.heap[ref].id == c.m.heap[ref].id)
  }

  lemma Expires(c: Cluster, id: WorkerID, ref: nat, h: History) returns (late: Cluster, h': History)
    requires LeadsTo(h, c) && Quiet(c) && id in c.m.entries && c.m.entries[id] == ref
    ensures late == c.(now := late.now) && c.m.heap[ref].expireAt < late.now && LeadsTo(h', late)
    ensures NeverHarmed(h) ==> NeverHarmed(h')
  {
    late := c.(now := if c.now <= c.m.heap[ref].expireAt then c.m.heap[ref].expireAt + 1 else c.now);
    h' := OneMore(h, c, Pass(late.now), late);
  }

  /** A failure that becomes known only after the entry has expired misses its job. */
  lemma LateFailureBreaks(timeouts: TimeoutConfig, id: WorkerID, node: ExecutorID, meta: JobMeta)
    returns (before: History, c': Cluster)
    ensures IsHistory(before) && NeverHarmed(before)
    ensures Possible(Now(before), ConfirmFails(0)) && Do(Now(before), ConfirmFails(0)) == Fine(c')
    ensures c'.m.Valid() && !c'.m.errored && Drain(c'.m, c'.jobs) == NotFound
  {
    var h := StartedJobReached(timeouts, id, node, meta);
    var late, waited := Expires(StartedJob(timeouts, id, node, meta), id, 0, h);
    before := OneMore(waited, late, Check(id), late.(m := CheckEntry(late.m, id, late.now).m));
    c' := Do(Now(before), ConfirmFails(0)).c;
    FailureMissesIff(before, 0);
  }

  lemma ComesOnline(c: Cluster, id: WorkerID, ref: nat, h: History, node: ExecutorID) returns (h': History)
    requires LeadsTo(h, c) && Has(c, id, ref, Created) && id in c.jobs.waitAck && ref in c.running && c.failed == {}
    requires id !in c.jobs.pending
    ensures LeadsTo(h', Now(h')) && Has(Now(h'), id, ref, Normal) && id in Now(h').jobs.online
    ensures Sequel(c, Now(h')) && Now(h').dispatches == c.dispatches && |Now(h').m.heap| == |c.m.heap|
    ensures id !in Now(h').jobs.pending && (NeverHarmed(h) ==> NeverHarmed(h'))
  {
    var m1 := Heartbeat(c.m, id, c.m.epoch, false, node, c.now).m;
    h' := OneMore(h, c, Ping(id, false, node), c.(m := m1));
    var m2 := TickOne(m1, false).m;
    h' := OneMore(h', c.(m := m1), Deliver, c.(m := m2, jobs := JobOnline(c.jobs, id)));
  }

  /** Without pings the entry of a job expires, and the job is pending for failover. */
  lemma GoesAway(c: Cluster, id: WorkerID, ref: nat, h: History) returns (h': History)
    requires LeadsTo(h, c) && (Has(c, id, ref, Normal) || Has(c, id, ref, Created))
    requires (id in c.jobs.online || id in c.jobs.waitAck) && id !in c.jobs.pending
    ensures LeadsTo(h', Now(h')) && Quiet(Now(h')) && id !in Now(h').m.entries && id in Now(h').jobs.pending
    ensures Sequel(c, Now(h')) && Now(h').dispatches == c.dispatches && |Now(h').m.heap| == |c.m.heap|
    ensures NeverHarmed(h) ==> NeverHarmed(h')
  {
    var late, waited := Expires(c, id, ref, h);
    var m2, m3 := Leaves(c.m, id, late.now);
    h' := OneMore(waited, late, Check(id), late.(m := m2));
    h' := OneMore(h', late.(m := m2), Deliver, late.(m := m3, jobs := JobOffline(c.jobs, id, true)));
  }

  /** An expired entry is taken down, and cleaned up in its callback. */
  lemma Leaves(m: Manager, id: WorkerID, now: Time) returns (down: Manager, gone: Manager)
    requires m.Valid() && m.phase == Ready && m.next == |m.events| && !m.errored && id in m.entries
    requires var e := m.heap[m.entries[id]];
      CanGoOffline(e) && e.expireAt < now && OfflineReasonOf(e.status) == WorkerOffline
    ensures CheckEntry(m, id, now) == Went(down) && down.Valid() && !down.errored && down.next < |down.events|
    ensures down.events[down.next] == OfflineEvent(id, m.entries[id], WorkerOffline)
    ensures TickOne(down, true) == Went(gone) && gone.Valid()
    ensures gone.phase == Ready && gone.next == |gone.events| && !gone.errored && id !in gone.entries
    ensures |gone.heap| == |m.heap| && forall ref: nat :: ref < |m.heap| ==> gone.heap[ref].id == m.heap[ref].id
  {
    down := CheckEntry(m, id, now).m;
    gone := TickOne(down, true).m;
  }

  lemma StartsAgain(c: Cluster, id: WorkerID, h: History, node: ExecutorID) returns (h': History)
    requires LeadsTo(h, c) && Quiet(c) && id !in c.m.entries && id in c.jobs.pending && Partition(c.jobs)
    ensures LeadsTo(h', Now(h')) && Waits(Now(h'), id, |c.m.heap|, |c.dispatches|)
    ensures Sequel(c, Now(h')) && |Now(h').m.heap| == |c.m.heap| + 1 && |Now(h').dispatches| == |c.dispatches| + 1
    ensures c.m.heap <= Now(h').m.heap
    ensures Partition(Now(h').jobs) && (NeverHarmed(h) ==> NeverHarmed(h'))
    ensures forall h0 :: FailsNext(h0, h) ==> FailsNext(h0, h')
  {
    var ref, k := |c.m.heap|, |c.dispatches|;
    var c1 := c.(mode := Ticking);
    h' := OneMore(h, c, Drained, c1);
    var c2 := c1.(jobs := Redispatched(c.jobs, id), dispatches := c.dispatches + [Dispatch(id, Scheduling)]);
    h' := OneMore(h', c1, Redispatch(id), c2);
    var c3 := c2.(m := BeforeStarting(c.m, id, node, c.now).m,
                  dispatches := c.dispatches + [Dispatch(id, Confirming(ref, c.now))]);
    assert MoveTo(c2, k, Confirming(ref, c.now)).dispatches == c3.dispatches;
    h' := OneMore(h', c2, Start(k, node), c3);
    h' := OneMore(h', c3, TickOver, c3.(mode := Draining));
  }

  /**
   A first life, from submission to failover; then the job is dispatched again. A ping of incarnation 0
   arrives before the confirmation of incarnation 1 fails, and the failure misses its job.
   */
  lemma StalePingBreaks(timeouts: TimeoutConfig, id: WorkerID, node: ExecutorID, meta: JobMeta)
    returns (alone: History, pinged: History, c': Cluster)
    ensures LeadsTo(alone, Now(alone)) && Waits(Now(alone), id, 1, 1)
    ensures Now(alone).running == {0} && |Now(alone).m.heap| > 1 && Now(alone).m.heap[0].id == id
    ensures pinged == After(alone, Ping(id, false, node), Now(pinged)) && IsHistory(pinged) && NeverHarmed(pinged)
    ensures Possible(Now(pinged), ConfirmFails(1)) && Do(Now(pinged), ConfirmFails(1)) == Fine(c')
    ensures c'.m.Valid() && !c'.m.errored && Drain(c'.m, c'.jobs) == NotFound
  {
    alone := FirstLife(timeouts, id, node, meta);
    var c := Now(alone);
    var m1 := Heartbeat(c.m, id, c.m.epoch, false, node, c.now).m;
    assert 0 in c.running && c.m.heap[0].id == id;
    pinged := OneMore(alone, c, Ping(id, false, node), c.(m := m1));
    c' := Do(Now(pinged), ConfirmFails(1)).c;
    FailureMissesIff(pinged, 1);
  }

  lemma FirstLife(timeouts: TimeoutConfig, id: WorkerID, node: ExecutorID, meta: JobMeta) returns (h: History)
    ensures LeadsTo(h, Now(h)) && NeverHarmed(h) && Waits(Now(h), id, 1, 1)
    ensures Now(h).running == {0} && Now(h).failed == {} && Now(h).m.heap[0].id == id
  {
    var c0 := StartedJob(timeouts, id, node, meta);
    var started := StartedJobReached(timeouts, id, node, meta);
    var runs := Runs(c0, id, 0, 0, started);
    var online := ComesOnline(Now(runs), id, 0, runs, node);
    var gone := GoesAway(Now(online), id, 0, online);
    HistoryKeeps(gone);
    h := StartsAgain(Now(gone), id, gone, node);
  }

  /** The executor accepts the task. */
  lemma Runs(c: Cluster, id: WorkerID, ref: nat, k: nat, h: History) returns (h': History)
    requires LeadsTo(h, c) && Waits(c, id, ref, k)
    ensures LeadsTo(h', c.(running := c.running + {ref})) && (NeverHarmed(h) ==> NeverHarmed(h'))
    ensures forall h0 :: FailsNext(h0, h) ==> FailsNext(h0, h')
  {
    h' := OneMore(h, c, WorkerRuns(k), c.(running := c.running + {ref}));
  }

  /** The failure of incarnation 0 misses nothing, and is harmful. */
  ghost predicate HitsSuccessor(c: Cluster, id: WorkerID) {
    && c.m.Valid() && Possible(c, ConfirmFails(0)) && c.dispatches[0].id == id
    && Expected(c.m, c.jobs, id) && !Harmless(c, ConfirmFails(0))
  }

  /** Two incarnations of the job run, and only the later one is an entry. */
  ghost predicate Doubled(c: Cluster, id: WorkerID) {
    && c.m.Valid() && c.running == {1, 2} && |c.m.heap| == 3 && c.m.heap[1].id == id && c.m.heap[2].id == id
    && id in c.m.entries && c.m.entries[id] == 2
  }

  /**
   The failure of incarnation 0 is known only when incarnation 1 has taken its place. It misses nothing,
   but it drops the entry of incarnation 1, which runs; so the job is dispatched once more, and then two
   incarnations of it run.
   */
  lemma SupersededFailureDoubles(timeouts: TimeoutConfig, id: WorkerID, node: ExecutorID, meta: JobMeta)
    returns (before: History, h: History)
    ensures NeverHarmed(before) && HitsSuccessor(Now(before), id)
    ensures IsHistory(h) && FailsNext(before, h) && Doubled(Now(h), id)
  {
    before := SuccessorRuns(timeouts, id, node, meta);
    SupersededHarms(Now(before), id);
    h := LosesEntry(Now(before), id, before);
    h := StartsAgain(Now(h), id, h, node);
    h := Runs(Now(h), id, 2, 2, h);
    assert {1} + {2} == {1, 2};
  }

  /** Incarnation 1 has been accepted, and the goroutine of incarnation 0 still waits. */
  ghost predicate Superseded(c: Cluster, id: WorkerID) {
    && Has(c, id, 1, Created) && id in c.jobs.waitAck && Partition(c.jobs) && c.running == {1} && c.failed == {}
    && |c.m.heap| == 2 && c.m.heap[0].state == Tombstone && |c.dispatches| == 2
    && StageIs(c, 0, true) && c.dispatches[0].id == id && c.dispatches[0].stage.ref == 0
  }

  /** The entry of incarnation 0 has expired, while its goroutine still waits for the confirmation. */
  lemma NeverHeardOf(timeouts: TimeoutConfig, id: WorkerID, node: ExecutorID, meta: JobMeta) returns (h: History)
    ensures IsHistory(h) && NeverHarmed(h)
    ensures var c := Now(h);
      && Quiet(c) && id !in c.m.entries && id in c.jobs.pending && Partition(c.jobs)
      && |c.m.heap| == 1 && c.m.heap[0].state == Tombstone && c.running == {} && c.failed == {}
      && c.dispatches == [Dispatch(id, Confirming(0, 0))]
  {
    var c0 := StartedJob(timeouts, id, node, meta);
    h := StartedJobReached(timeouts, id, node, meta);
    h := GoesAway(c0, id, 0, h);
    HistoryKeeps(h);
    assert RefOk(Now(h).m, 0);
  }

  lemma SuccessorRuns(timeouts: TimeoutConfig, id: WorkerID, node: ExecutorID, meta: JobMeta) returns (h: History)
    ensures IsHistory(h) && NeverHarmed(h) && Superseded(Now(h), id)
  {
    h := NeverHeardOf(timeouts, id, node, meta);
    var c := Now(h);
    h := StartsAgain(c, id, h, node);
    var c' := Now(h);
    assert c'.m.heap[0] == c.m.heap[0] && c'.dispatches[0] == c.dispatches[0];
    h := Runs(c', id, 1, 1, h);
  }

  lemma SupersededHarms(c: Cluster, id: WorkerID)
    requires Superseded(c, id)
    ensures HitsSuccessor(c, id)
  {}

  /** The successor has no entry any more, and its job is pending. */
  ghost predicate LostBy(c: Cluster, c': Cluster, id: WorkerID) {
    && Quiet(c') && id !in c'.m.entries && id in c'.jobs.pending && Partition(c'.jobs)
    && c'.m.heap == c.m.heap && c'.running == c.running && |c'.dispatches| == |c.dispatches|
  }

  lemma LosesEntry(c: Cluster, id: WorkerID, h: History) returns (h': History)
    requires LeadsTo(h, c) && Superseded(c, id)
    ensures LeadsTo(h', Now(h')) && FailsNext(h, h') && LostBy(c, Now(h'), id)
  {
    var c1 := Do(c, ConfirmFails(0)).c;
    h' := OneMore(h, c, ConfirmFails(0), c1);
    assert FailsNext(h, h');
    var c2 := c1.(m := TickOne(c1.m, false).m, jobs := JobDispatchFailed(c.jobs, id));
    h' := OneMore(h', c1, Deliver, c2);
  }
}
