/** What the invariant says of the WorkerManager to those who use it. */
module ManagerSafety {
  import opened Timeouts
  import opened ManagerModel
  import opened ManagerInvariant

  // ---------------------------------------------------------------- queue and entries

  /** The queue position of the one offline event of an incarnation. */
  ghost predicate OnlyOffline(m: Manager, i: nat, ref: nat)
    requires m.Valid()
  {
    && m.next <= i < |m.events| && IsOffline(m, i, ref)
    && (forall j: nat :: m.next <= j < |m.events| && IsOffline(m, j, ref) ==> j == i)
  }

  /** While no error is recorded, an entry is Offline iff exactly one offline event for it is queued. */
  lemma OfflineIffQueuedOnce(m: Manager, id: WorkerID)
    requires Inv(m) && !m.errored && id in m.entries
    ensures m.heap[m.entries[id]].state == Offline <==> exists i: nat :: OnlyOffline(m, i, m.entries[id])
  {
    var ref := m.entries[id];
    assert RefOk(m, ref);
    if m.heap[ref].state == Offline {
      var i :| m.next <= i < |m.events| && IsOffline(m, i, ref);
      forall j: nat | m.next <= j < |m.events| && IsOffline(m, j, ref) ensures j == i {
        assert j < i ==> Apart(m.events[j], m.events[i]);
        assert i < j ==> Apart(m.events[i], m.events[j]);
      }
      assert OnlyOffline(m, i, ref);
    }
    if i: nat :| OnlyOffline(m, i, ref) {
      assert EventOk(m, i);
    }
  }

  /** No entry waits for a first heartbeat once the manager is ready. */
  lemma NoWaitWhenReady(m: Manager)
    requires Inv(m) && m.phase == Ready
    ensures NoneWaiting(m)
  {
    forall id | id in m.entries ensures m.heap[m.entries[id]].state != Wait {
      assert RefOk(m, m.entries[id]);
    }
  }

  // ---------------------------------------------------------------- callbacks

  /** In every run, each incarnation is called back in the order status* online? status* offline?. */
  lemma {:induction false} CallbackOrder(m0: Manager, t: Trace, ref: nat)
    requires Inv(m0) && AllowedRun(m0, t) && Play(m0, t).Went?
    ensures StageOf(Play(m0, t).m.log, ref) != Broken
  {
    RunKeeps(m0, t);
    var m := Play(m0, t).m;
    if ref < |m.heap| { assert RefOk(m, ref); }
  }

  /** The handle given to an online or status callback still finds its own entry, unless aborted. */
  lemma HandleResolves(m: Manager, clean: bool, ref: nat, callback: Callback)
    requires Inv(m) && TickOne(m, clean).Went?
    requires TickOne(m, clean).m.log == Called(m.log, ref, callback) && callback != OfflineCall
    requires ref !in m.aborted
    ensures m.events[m.next].ref == ref && ref < |m.heap|
    ensures IsMapped(TickOne(m, clean).m, ref) && m.events[m.next].id == m.heap[ref].id
  {
    assert EventOk(m, m.next);
    assert RefOk(m, ref);
  }

  /** A worker recovered from the metastore is never announced as online. */
  lemma {:induction false} RecoveredNeverOnline(m0: Manager, t: Trace, ref: nat)
    requires Inv(m0) && AllowedRun(m0, t) && Play(m0, t).Went?
    requires ref < Play(m0, t).m.recovered
    ensures !EverOnlined(Play(m0, t).m.log, ref)
  {
    RunKeeps(m0, t);
    assert RefOk(Play(m0, t).m, ref);
  }

  /** allWorkersReady is closed at most once. */
  lemma {:induction false} ReadyClosedOnce(m0: Manager, t: Trace)
    requires Inv(m0) && AllowedRun(m0, t)
    ensures Play(m0, t) != Panicked(ClosedTwice)
    ensures Play(m0, t).Went? ==> Play(m0, t).m.readyCloses <= 1
  {
    RunKeeps(m0, t);
  }

  /**
   Why the handle of an aborted incarnation is not safe to clean: the abort waits in the queue past
   the expiry of its entry, and its callback starts the same ID again.
   */
  lemma AbortedSuccessorPanics(id: WorkerID, executor: ExecutorID)
    ensures exists t: Trace ::
      var m0 := NewManager(0, DEFAULT_TIMEOUTS, true);
      AllowedRun(m0, t) && Play(m0, t) == Panicked(NotATombstone)
  {
    var m0 := NewManager(0, DEFAULT_TIMEOUTS, true);
    var late := NextExpireTime(DEFAULT_TIMEOUTS, 0) + 1;
    assert Plays(m0, NoSteps, m0);
    var m1 := BeforeStarting(m0, id, executor, 0).m;
    var t1 := OneMore(m0, NoSteps, m0, StartStep(id, executor, 0), m1);
    var m2 := AbortCreating(m1, id);
    var t2 := OneMore(m0, t1, m1, AbortStep(id), m2);
    var m3 := CheckEntry(m2, id, late).m;
    var t3 := OneMore(m0, t2, m2, CheckStep(id, late), m3);
    var m4 := TickOne(m3, true).m;
    var t4 := OneMore(m0, t3, m3, TickStep(true), m4);
    var m5 := BeforeStarting(m4, id, executor, late).m;
    var t5 := OneMore(m0, t4, m4, StartStep(id, executor, late), m5);
    assert TickOne(m5, true) == Panicked(NotATombstone);
    assert AllowedRun(m0, Then(t5, TickStep(true)));
  }

  predicate Plays(m0: Manager, t: Trace, m: Manager)
    requires m0.Valid()
  {
    AllowedRun(m0, t) && Play(m0, t) == Went(m)
  }

  lemma OneMore(m0: Manager, t: Trace, m: Manager, s: Step, m': Manager) returns (t': Trace)
    requires m0.Valid() && m.Valid() && Plays(m0, t, m) && Allowed(m, s) && Apply(m, s) == Went(m')
    ensures t' == Then(t, s) && Plays(m0, t', m')
  {
    t' := Then(t, s);
  }
}
