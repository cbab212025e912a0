/**
 When a job's callback misses it: the outcome of draining the event queue, decided before the failure
 of a dispatch or a ping is let in.
 */
module JobHarm {
  import opened Timeouts
  import opened ManagerModel
  import opened ManagerInvariant
  import opened JobStates
  import opened JobWorkers
  import opened JobSafety

  /** Delivering all that is queued. */
  function Drain(m: Manager, jobs: Jobs): Delivery
    requires m.Valid()
    decreases |m.events| - m.next
  {
    if m.next == |m.events| then Both(m, jobs)
    else
      var d := DeliverNext(m, jobs);
      if d.Both? then Drain(d.m, d.jobs) else d
  }

  // ---------------------------------------------------------------- what becomes of a waiting job

  /** The job waits, its entry if any is still Created, and no failure is queued for it. */
  ghost predicate Expected(m: Manager, jobs: Jobs, id: WorkerID)
    requires m.Valid()
  {
    && id in jobs.waitAck && !FailureQueued(m, id)
    && (id in m.entries ==> m.heap[m.entries[id]].state == Created)
  }

  predicate SameEntry(m: Manager, m': Manager, id: WorkerID) {
    (id in m.entries <==> id in m'.entries) && (id in m.entries ==> m.entries[id] == m'.entries[id])
  }

  /** A failure queued behind the first event, and only there, is still queued. */
  lemma FailureBehind(m: Manager, m': Manager, id: WorkerID)
    requires m.next < |m.events| && m'.next == m.next + 1 && m'.events == m.events
    requires m.events[m.next] != DispatchFailedEvent(id)
    ensures FailureQueued(m, id) <==> FailureQueued(m', id)
  {
    QueuedBehind(m, m', 0, id);
    if FailureQueued(m', id) {
      var i :| m'.next <= i < |m'.events| && m'.events[i] == DispatchFailedEvent(id);
      assert m.events[i] == DispatchFailedEvent(id);
    }
  }

  lemma ExpectedOnline(c: Cluster, id: WorkerID)
    requires AtHead(c) && c.m.events[c.m.next].OnlineEvent?
    ensures Delivered(c).Fine? && Delivered(c).c.m.Valid()
    ensures Expected(Delivered(c).c.m, Delivered(c).c.jobs, id) <==> Expected(c.m, c.jobs, id)
    ensures Expected(c.m, c.jobs, id) ==> SameEntry(c.m, Delivered(c).c.m, id)
  {
    DeliverOnline(c);
    assert QueuedOk(c, c.m.next) && EventOk(c.m, c.m.next);
    FailureBehind(c.m, Delivered(c).c.m, id);
  }

  lemma ExpectedStatus(c: Cluster, id: WorkerID)
    requires AtHead(c) && c.m.events[c.m.next].StatusEvent?
    ensures Delivered(c).Fine? && Delivered(c).c.m.Valid()
    ensures Expected(Delivered(c).c.m, Delivered(c).c.jobs, id) <==> Expected(c.m, c.jobs, id)
    ensures Expected(c.m, c.jobs, id) ==> SameEntry(c.m, Delivered(c).c.m, id)
  {
    DeliverStatus(c);
    FailureBehind(c.m, Delivered(c).c.m, id);
  }

  lemma ExpectedOffline(c: Cluster, id: WorkerID)
    requires AtHead(c) && c.m.events[c.m.next].OfflineEvent?
    ensures Delivered(c).Fine? && Delivered(c).c.m.Valid()
    ensures Expected(Delivered(c).c.m, Delivered(c).c.jobs, id) <==> Expected(c.m, c.jobs, id)
    ensures Expected(c.m, c.jobs, id) ==> SameEntry(c.m, Delivered(c).c.m, id)
  {
    OfflineShape(c);
    FailureBehind(c.m, Delivered(c).c.m, id);
    assert IdOk(c, id);
  }

  lemma ExpectedDispatchFailed(c: Cluster, id: WorkerID)
    requires AtHead(c) && c.m.events[c.m.next].DispatchFailedEvent?
    ensures Delivered(c).Fine? && Delivered(c).c.m.Valid()
    ensures Expected(Delivered(c).c.m, Delivered(c).c.jobs, id) <==> Expected(c.m, c.jobs, id)
    ensures Expected(c.m, c.jobs, id) ==> SameEntry(c.m, Delivered(c).c.m, id)
  {
    DeliverDispatchFailed(c);
    assert QueuedOk(c, c.m.next);
    if c.m.events[c.m.next].id == id {
      assert FailureQueued(c.m, id);
    } else {
      FailureBehind(c.m, Delivered(c).c.m, id);
    }
  }

  /** Delivering an event changes nothing about whether a job is as expected. */
  lemma ExpectedKept(c: Cluster, id: WorkerID)
    requires AtHead(c)
    ensures Delivered(c).Fine? && ClusterInv(Delivered(c).c)
    ensures Expected(Delivered(c).c.m, Delivered(c).c.jobs, id) <==> Expected(c.m, c.jobs, id)
    ensures Expected(c.m, c.jobs, id) ==> SameEntry(c.m, Delivered(c).c.m, id)
  {
    DeliverKeeps(c);
    match c.m.events[c.m.next]
    case OnlineEvent(_, _, _) => ExpectedOnline(c, id);
    case StatusEvent(_, _, _, _) => ExpectedStatus(c, id);
    case OfflineEvent(_, _, _) => ExpectedOffline(c, id);
    case DispatchFailedEvent(_) => ExpectedDispatchFailed(c, id);
  }

  /** With nothing queued, the jobs as expected are those that wait. */
  lemma ExpectedAtEnd(c: Cluster, id: WorkerID)
    requires ClusterInv(c) && c.m.next == |c.m.events|
    ensures Expected(c.m, c.jobs, id) <==> id in c.jobs.waitAck
  {
    assert IdOk(c, id);
    if id in c.m.entries { assert RefOk(c.m, c.m.entries[id]); }
  }

  /** Draining never fails, and leaves waiting exactly the jobs that were as expected. */
  lemma {:induction false} DrainKeeps(c: Cluster, id: WorkerID)
    requires ClusterInv(c) && c.mode == Draining
    ensures var d := Drain(c.m, c.jobs);
      && d.Both? && ClusterInv(c.(m := d.m, jobs := d.jobs)) && d.m.next == |d.m.events|
      && (id in d.jobs.waitAck <==> Expected(c.m, c.jobs, id))
    decreases |c.m.events| - c.m.next
  {
    if c.m.next == |c.m.events| {
      ExpectedAtEnd(c, id);
    } else {
      ExpectedKept(c, id);
      DrainKeeps(Delivered(c).c, id);
    }
  }

  // ---------------------------------------------------------------- failures of dispatches

  function Append(m: Manager, ev: Event): (m': Manager)
    requires m.Valid() && Fits(m, ev)
    ensures m'.Valid()
  {
    m.(events := m.events + [ev])
  }

  /** An event that may be queued: it speaks of an entry that exists. */
  predicate Fits(m: Manager, ev: Event) {
    ev.DispatchFailedEvent? || (ev.ref < |m.heap| && m.heap[ev.ref].id == ev.id)
  }

  function AppendTo(r: Outcome, ev: Event): Outcome
    requires r.Went? ==> r.m.Valid() && Fits(r.m, ev)
  {
    if r.Went? then Went(Append(r.m, ev)) else r
  }

  lemma HookAppend(m: Manager, head: Event, ev: Event)
    requires m.Valid() && Fits(m, ev) && Fits(m, head)
    ensures RunHook(m, head).Went? ==> Fits(RunHook(m, head).m, ev)
    ensures RunHook(Append(m, ev), head) == AppendTo(RunHook(m, head), ev)
  {}

  lemma RemoveAppend(m: Manager, id: WorkerID, ev: Event)
    requires m.Valid() && Fits(m, ev)
    ensures RemoveTombstone(m, id).Went? ==> Fits(RemoveTombstone(m, id).m, ev)
    ensures RemoveTombstone(Append(m, ev), id) == AppendTo(RemoveTombstone(m, id), ev)
  {}

  lemma CleanAppend(r: Outcome, clean: bool, head: Event, ev: Event)
    requires r.Went? ==> r.m.Valid() && Fits(r.m, ev)
    ensures var r' := AfterCallback(r, clean, head);
      && (r'.Went? ==> Fits(r'.m, ev)) && AfterCallback(AppendTo(r, ev), clean, head) == AppendTo(r', ev)
  {
    if r.Went? { RemoveAppend(r.m, head.id, ev); }
  }

  lemma TickAppend(m: Manager, clean: bool, ev: Event)
    requires m.Valid() && Fits(m, ev) && m.next < |m.events|
    ensures TickOne(m, clean).Went? ==> Fits(TickOne(m, clean).m, ev)
    ensures TickOne(Append(m, ev), clean) == AppendTo(TickOne(m, clean), ev)
  {
    var r := TicksAs(m, clean, ev);
    AppendedTick(m, clean, ev, r);
  }

  lemma TicksAs(m: Manager, clean: bool, ev: Event) returns (r: Outcome)
    requires m.Valid() && Fits(m, ev) && m.next < |m.events|
    ensures r == TickOne(m, clean) && (r.Went? ==> r.m.Valid() && Fits(r.m, ev))
    ensures var head, m1 := m.events[m.next], Append(m, ev).(next := m.next + 1);
      m1.Valid() && AfterCallback(RunHook(m1, head), clean, head) == AppendTo(r, ev)
  {
    var head, m1 := m.events[m.next], m.(next := m.next + 1);
    var hooked := Hooked(m1, head, ev);
    CleanAppend(hooked, clean, head, ev);
    TickIs(m, clean, hooked);
    assert Append(m, ev).(next := m.next + 1) == Append(m1, ev);
    r := AfterCallback(hooked, clean, head);
  }

  lemma AppendedTick(m: Manager, clean: bool, ev: Event, r: Outcome)
    requires m.Valid() && Fits(m, ev) && m.next < |m.events|
    requires var m1 := Append(m, ev).(next := m.next + 1);
      m1.Valid() && r == TickOne(m, clean) && (r.Went? ==> r.m.Valid() && Fits(r.m, ev))
      && AfterCallback(RunHook(m1, m.events[m.next]), clean, m.events[m.next]) == AppendTo(r, ev)
    ensures TickOne(Append(m, ev), clean) == AppendTo(r, ev)
  {
    assert Append(m, ev).events[m.next] == m.events[m.next];
  }

  lemma Hooked(m: Manager, head: Event, ev: Event) returns (r: Outcome)
    requires m.Valid() && Fits(m, ev) && Fits(m, head)
    ensures r == RunHook(m, head) && (r.Went? ==> r.m.Valid() && Fits(r.m, ev))
    ensures RunHook(Append(m, ev), head) == AppendTo(r, ev)
  {
    HookAppend(m, head, ev);
    r := RunHook(m, head);
  }

  /** An event at the end of the queue makes no difference to the ones before it. */
  lemma DeliverAppend(m: Manager, jobs: Jobs, ev: Event)
    requires m.Valid() && m.next < |m.events| && Fits(m, ev)
    ensures var d := DeliverNext(m, jobs);
      && (d.Both? ==> Fits(d.m, ev))
      && DeliverNext(Append(m, ev), jobs) == (if d.Both? then Both(Append(d.m, ev), d.jobs) else d)
  {
    TickAppend(m, true, ev);
    TickAppend(m, false, ev);
  }

  /** The job is pending and has no entry; the incarnation that was the entry of its ID is aborted. */
  ghost predicate Dropped(m: Manager, id: WorkerID, d: Delivery) {
    && d.Both? && id in d.jobs.pending && id !in d.m.entries
    && (id in m.entries ==> m.entries[id] in d.m.aborted)
  }

  /** A failure at the end of the queue misses its job, or drops whoever is the entry of its ID. */
  lemma {:induction false} DrainAppend(c: Cluster, id: WorkerID)
    requires ClusterInv(c) && c.mode == Draining
    ensures var d := Drain(Append(c.m, DispatchFailedEvent(id)), c.jobs);
      if Expected(c.m, c.jobs, id) then Dropped(c.m, id, d) else d == NotFound
    decreases |c.m.events| - c.m.next
  {
    if c.m.next == |c.m.events| {
      ExpectedAtEnd(c, id);
    } else {
      ExpectedKept(c, id);
      DeliverAppend(c.m, c.jobs, DispatchFailedEvent(id));
      DrainAppend(Delivered(c).c, id);
    }
  }

  lemma DrainingKeeps(c: Cluster)
    requires ClusterInv(c)
    ensures ClusterInv(c.(mode := Draining))
  {
    QuietKeeps(c, TickOver);
  }

  /** Draining the queue after a failed confirmation, in a state reached without harm. */
  lemma FailureDrains(c: Cluster, k: nat)
    requires ClusterInv(c) && Possible(c, ConfirmFails(k)) && !Do(c, ConfirmFails(k)).c.m.errored
    ensures var id, ref, c' := c.dispatches[k].id, c.dispatches[k].stage.ref, Do(c, ConfirmFails(k)).c;
      && c'.m.Valid() && ref < |c.m.heap| && c.m.heap[ref].id == id
      && (if Expected(c.m, c.jobs, id) then Dropped(c.m, id, Drain(c'.m, c'.jobs)) else Drain(c'.m, c'.jobs) == NotFound)
      && (Harmless(c, ConfirmFails(k)) ==> IsMapped(c.m, ref) && Expected(c.m, c.jobs, id))
  {
    assert ConfirmingOk(c, k);
    DrainingKeeps(c);
    DrainAppend(c.(mode := Draining), c.dispatches[k].id);
    if Harmless(c, ConfirmFails(k)) { FailingIsCurrent(c, k); }
  }

  /**
   The exact condition on a failed confirmation, after any run without harm: the job manager misses the
   job iff it is not as expected. For the current incarnation that is iff its entry has left Created.
   */
  lemma {:induction false} FailureMissesIff(h: History, k: nat)
    requires IsHistory(h) && NeverHarmed(h)
    requires Possible(Now(h), ConfirmFails(k)) && !Do(Now(h), ConfirmFails(k)).c.m.errored
    ensures var c, c' := Now(h), Do(Now(h), ConfirmFails(k)).c;
      var id, ref := c.dispatches[k].id, c.dispatches[k].stage.ref;
      && c'.m.Valid() && ref < |c.m.heap|
      && (Drain(c'.m, c'.jobs) == NotFound <==> !Expected(c.m, c.jobs, id))
      && (IsMapped(c.m, ref) ==> (Drain(c'.m, c'.jobs) == NotFound <==> !Harmless(c, ConfirmFails(k))))
  {
    HistoryKeeps(h);
    FailureDrains(Now(h), k);
  }

  /**
   What a failure does that misses nothing: the job becomes pending and the entry of its ID is dropped.
   That entry is the incarnation that failed iff the failure is harmless; otherwise the failure is of a
   superseded incarnation, and hits its successor.
   */
  lemma {:induction false} FailureDropsIff(h: History, k: nat)
    requires IsHistory(h) && NeverHarmed(h)
    requires Possible(Now(h), ConfirmFails(k)) && !Do(Now(h), ConfirmFails(k)).c.m.errored
    requires Expected(Now(h).m, Now(h).jobs, Now(h).dispatches[k].id)
    ensures var c, c' := Now(h), Do(Now(h), ConfirmFails(k)).c;
      var id, ref := c.dispatches[k].id, c.dispatches[k].stage.ref;
      && c'.m.Valid() && ref < |c.m.heap| && Dropped(c.m, id, Drain(c'.m, c'.jobs))
      && (Harmless(c, ConfirmFails(k)) <==> IsMapped(c.m, ref))
  {
    HistoryKeeps(h);
    FailureDrains(Now(h), k);
  }

  // ---------------------------------------------------------------- pings

  /** The entry of the incarnation `ref` is Created in `m` and Normal in `m'`; nothing else differs. */
  ghost predicate BroughtOnline(m: Manager, m': Manager, ref: nat) {
    && m.Valid() && ref < |m.heap| && m.heap[ref].state == Created
    && |m'.heap| == |m.heap| && m'.heap[ref].state == Normal && m'.heap[ref].id == m.heap[ref].id
    && m' == Put(m, ref, m'.heap[ref])
  }

  lemma BroughtTick(c: Cluster, m': Manager, ref: nat, clean: bool)
    requires AtHead(c) && BroughtOnline(c.m, m', ref) && clean == c.m.events[c.m.next].OfflineEvent?
    ensures TickOne(c.m, clean).Went? && TickOne(m', clean).Went?
    ensures BroughtOnline(TickOne(c.m, clean).m, TickOne(m', clean).m, ref)
  {
    NotYetOffline(c.m, ref);
    match c.m.events[c.m.next]
    case StatusEvent(_, _, _, _) => BroughtStatus(c.m, m', ref);
    case OfflineEvent(_, _, _) => BroughtOffline(c, m', ref);
    case _ =>
  }

  /** Nothing queued, other than a status, speaks of an incarnation that is Created. */
  lemma DeliverBrought(c: Cluster, m': Manager, ref: nat)
    requires AtHead(c) && BroughtOnline(c.m, m', ref)
    ensures Delivered(c).Fine? && ClusterInv(Delivered(c).c)
    ensures DeliverNext(m', c.jobs).Both? && DeliverNext(m', c.jobs).jobs == Delivered(c).c.jobs
    ensures BroughtOnline(Delivered(c).c.m, DeliverNext(m', c.jobs).m, ref)
  {
    DeliverKeeps(c);
    BroughtTick(c, m', ref, c.m.events[c.m.next].OfflineEvent?);
  }

  lemma BroughtStatus(m: Manager, m': Manager, ref: nat)
    requires BroughtOnline(m, m', ref) && m.next < |m.events| && m.events[m.next].StatusEvent?
    ensures TickOne(m, false).Went? && TickOne(m', false).Went?
    ensures BroughtOnline(TickOne(m, false).m, TickOne(m', false).m, ref)
  {}

  lemma BroughtOffline(c: Cluster, m': Manager, ref: nat)
    requires AtHead(c) && BroughtOnline(c.m, m', ref)
    requires c.m.events[c.m.next].OfflineEvent? && c.m.events[c.m.next].ref != ref
    ensures TickOne(c.m, true).Went? && TickOne(m', true).Went?
    ensures BroughtOnline(TickOne(c.m, true).m, TickOne(m', true).m, ref)
  {
    OfflineShape(c);
  }

  /** An online event at the end of the queue misses a job that is not expected. */
  lemma {:induction false} DrainBrought(c: Cluster, m': Manager, ref: nat, ev: Event)
    requires ClusterInv(c) && c.mode == Draining && BroughtOnline(c.m, m', ref)
    requires ev.OnlineEvent? && ev.ref == ref && ev.id == c.m.heap[ref].id && !Expected(c.m, c.jobs, ev.id)
    ensures m'.Valid() && Fits(m', ev) && Drain(Append(m', ev), c.jobs) == NotFound
    decreases |c.m.events| - c.m.next
  {
    if c.m.next == |c.m.events| {
      ExpectedAtEnd(c, ev.id);
    } else {
      ExpectedKept(c, ev.id);
      DeliverBrought(c, m', ref);
      DeliverAppend(m', c.jobs, ev);
      DrainBrought(Delivered(c).c, DeliverNext(m', c.jobs).m, ref, ev);
    }
  }

  /** A ping at an entry whose failure is queued brings it online and announces that. */
  lemma HarmfulPing(c: Cluster, id: WorkerID, finished: bool, node: ExecutorID)
    requires ClusterInv(c) && Possible(c, Ping(id, finished, node)) && !Harmless(c, Ping(id, finished, node))
    requires !Do(c, Ping(id, finished, node)).c.m.errored
    ensures var c', ref := Do(c, Ping(id, finished, node)).c, c.m.entries[id];
      && ref < |c.m.heap| && c'.m.Valid() && !Expected(c.m, c.jobs, id)
      && var m' := Put(c.m, ref, c'.m.heap[ref]);
         BroughtOnline(c.m, m', ref) && c'.m == Append(m', OnlineEvent(id, ref, node)) && c'.jobs == c.jobs
  {
    HeartbeatKeeps(c.m, id, c.m.epoch, finished, node, c.now);
    assert IdOk(c, id);
  }

  /**
   The exact condition on a ping, however late, after any run without harm: the job manager misses a job
   iff the ping is harmful.
   */
  lemma {:induction false} PingMissesIff(h: History, id: WorkerID, finished: bool, node: ExecutorID)
    requires IsHistory(h) && NeverHarmed(h)
    requires Possible(Now(h), Ping(id, finished, node))
    ensures var r := Do(Now(h), Ping(id, finished, node));
      && r.Fine? && r.c.m.Valid()
      && (!r.c.m.errored ==>
            (Drain(r.c.m, r.c.jobs) == NotFound <==> !Harmless(Now(h), Ping(id, finished, node))))
  {
    var c, a := Now(h), Ping(id, finished, node);
    HistoryKeeps(h);
    NothingFails(h, a);
    if Do(c, a).c.m.errored {
    } else if Harmless(c, a) {
      ActionKeeps(c, a);
      var c' := Do(c, a).c;
      DrainingKeeps(c');
      DrainKeeps(c'.(mode := Draining), id);
    } else {
      HarmfulPing(c, id, finished, node);
      var c', ref := Do(c, a).c, c.m.entries[id];
      DrainingKeeps(c);
      DrainBrought(c.(mode := Draining), Put(c.m, ref, c'.m.heap[ref]), ref, OnlineEvent(id, ref, node));
    }
  }
}
