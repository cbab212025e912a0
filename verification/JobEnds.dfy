/**
 How a job ends: when the entry of its master is taken down, the status that the master last reported
 decides whether the job is over or is dispatched again.
 */
module JobEnds {
  import opened Timeouts
  import opened ManagerModel
  import opened ManagerInvariant
  import opened JobStates
  import opened JobWorkers
  import opened JobSafety
  import opened JobHarm

  /** The last event queued says that the incarnation `ref` of the job is gone. */
  ghost predicate GoneLast(c: Cluster, id: WorkerID, ref: nat, reason: OfflineReason) {
    c.m.next < |c.m.events| && c.m.events[|c.m.events| - 1] == OfflineEvent(id, ref, reason)
  }

  /** The job is pending, or will be when its queued failure is delivered. */
  ghost predicate Fails(c: Cluster, id: WorkerID) { id in c.jobs.pending || FailureQueued(c.m, id) }

  /** An event for another job leaves this one where it is. */
  lemma OtherJob(c: Cluster, id: WorkerID)
    requires AtHead(c) && c.m.events[c.m.next].id != id
    ensures Delivered(c).Fine? && SameJob(c.jobs, Delivered(c).c.jobs, id)
    ensures FailureQueued(c.m, id) <==> FailureQueued(Delivered(c).c.m, id)
  {
    DeliverKeeps(c);
    FailureBehind(c.m, Delivered(c).c.m, id);
  }

  predicate SameJob(s: Jobs, s': Jobs, id: WorkerID) {
    && (id in s.pending <==> id in s'.pending) && (id in s.waitAck <==> id in s'.waitAck)
    && (id in s.online <==> id in s'.online)
  }

  /** The failure of the job itself, delivered before the last event. */
  lemma OwnFailure(c: Cluster, id: WorkerID)
    requires AtHead(c) && c.m.events[c.m.next] == DispatchFailedEvent(id)
    ensures Delivered(c).Fine? && id in Delivered(c).c.jobs.pending && FailureQueued(c.m, id)
  {
    DeliverKeeps(c);
    assert QueuedOk(c, c.m.next);
  }

  /** Any other event of the job, delivered before the last one. */
  lemma OwnOther(c: Cluster, id: WorkerID, ref: nat, reason: OfflineReason)
    requires AtHead(c) && GoneLast(c, id, ref, reason) && c.m.next + 1 < |c.m.events| && id in All(c.jobs)
    requires c.m.events[c.m.next].id == id && !c.m.events[c.m.next].DispatchFailedEvent?
    ensures Delivered(c).Fine? && id in All(Delivered(c).c.jobs)
    ensures id in Delivered(c).c.jobs.pending <==> id in c.jobs.pending
    ensures FailureQueued(c.m, id) <==> FailureQueued(Delivered(c).c.m, id)
  {
    DeliverKeeps(c);
    var last := |c.m.events| - 1;
    assert QueuedOk(c, c.m.next) && QueuedOk(c, last) && Apart(c.m.events[c.m.next], c.m.events[last]);
    FailureBehind(c.m, Delivered(c).c.m, id);
  }

  /** What is delivered before the last event changes nothing about how the job ends. */
  lemma HeadKeepsEnd(c: Cluster, id: WorkerID, ref: nat, reason: OfflineReason)
    requires AtHead(c) && GoneLast(c, id, ref, reason) && c.m.next + 1 < |c.m.events| && id in All(c.jobs)
    ensures Delivered(c).Fine? && ClusterInv(Delivered(c).c) && GoneLast(Delivered(c).c, id, ref, reason)
    ensures id in All(Delivered(c).c.jobs) && (Fails(Delivered(c).c, id) <==> Fails(c, id))
  {
    DeliverKeeps(c);
    if c.m.events[c.m.next].id != id {
      OtherJob(c, id);
    } else if c.m.events[c.m.next].DispatchFailedEvent? {
      OwnFailure(c, id);
    } else {
      OwnOther(c, id, ref, reason);
    }
  }

  /** With the last event, the job becomes pending or is over. */
  lemma LastEnds(c: Cluster, id: WorkerID, ref: nat, reason: OfflineReason)
    requires AtHead(c) && GoneLast(c, id, ref, reason) && c.m.next + 1 == |c.m.events| && id in All(c.jobs)
    ensures Delivered(c).Fine? && ClusterInv(Delivered(c).c)
    ensures var jobs := Delivered(c).c.jobs;
      if Fails(c, id) || reason == WorkerOffline then id in jobs.pending else id !in All(jobs)
  {
    DeliverKeeps(c);
    assert IdOk(c, id);
  }

  lemma {:induction false} DrainEnds(c: Cluster, id: WorkerID, ref: nat, reason: OfflineReason)
    requires ClusterInv(c) && c.mode == Draining && GoneLast(c, id, ref, reason) && id in All(c.jobs)
    ensures var d := Drain(c.m, c.jobs);
      && d.Both?
      && if Fails(c, id) || reason == WorkerOffline then id in d.jobs.pending else id !in All(d.jobs)
    decreases |c.m.events| - c.m.next
  {
    if c.m.next + 1 == |c.m.events| {
      LastEnds(c, id, ref, reason);
      DrainKeeps(Delivered(c).c, id);
    } else {
      HeadKeepsEnd(c, id, ref, reason);
      DrainEnds(Delivered(c).c, id, ref, reason);
    }
  }

  /** The check takes the entry down: it is alive, and its time is over or it has said that it is finished. */
  predicate Due(c: Cluster, id: WorkerID)
    requires c.m.Valid()
  {
    && id in c.m.entries
    && var e := c.m.heap[c.m.entries[id]];
       (e.state == Created || e.state == Normal) && (e.expireAt < c.now || e.finished)
  }

  lemma CheckQueues(c: Cluster, id: WorkerID)
    requires ClusterInv(c) && Due(c, id) && Do(c, Check(id)).Fine? && !Do(c, Check(id)).c.m.errored
    ensures var c', e := Do(c, Check(id)).c, c.m.heap[c.m.entries[id]];
      && c'.jobs == c.jobs
      && GoneLast(c', id, c.m.entries[id],
                  if e.status.code == StatusFinished then WorkerFinish
                  else if e.status.code == StatusStopped then WorkerStop else WorkerOffline)
      && (FailureQueued(c'.m, id) <==> FailureQueued(c.m, id))
  {
    var m' := Do(c, Check(id)).c.m;
    QueuedOnce(c.m, m', id);
  }

  lemma QueuedOnce(m: Manager, m': Manager, id: WorkerID)
    requires m.next <= |m.events| && m'.next == m.next && |m'.events| == |m.events| + 1
    requires m'.events[..|m.events|] == m.events && m'.events[|m.events|] != DispatchFailedEvent(id)
    ensures FailureQueued(m', id) <==> FailureQueued(m, id)
  {
    if FailureQueued(m, id) {
      var i :| m.next <= i < |m.events| && m.events[i] == DispatchFailedEvent(id);
      assert m'.events[i] == m'.events[..|m.events|][i];
    }
    if FailureQueued(m', id) {
      var i :| m'.next <= i < |m'.events| && m'.events[i] == DispatchFailedEvent(id);
      assert m'.events[..|m.events|][i] == m'.events[i];
    }
  }

  /**
   In every run without harm: when the entry of a job's master is taken down and all that is queued is
   delivered, the job is over iff the master had last reported that it is finished or stopped, unless
   its dispatch has failed before; otherwise the job is pending.
   */
  lemma {:induction false} OverIff(h: History, id: WorkerID)
    requires IsHistory(h) && NeverHarmed(h) && Due(Now(h), id)
    requires Do(Now(h), Check(id)).Fine? ==> !Do(Now(h), Check(id)).c.m.errored
    ensures var c, r := Now(h), Do(Now(h), Check(id));
      && r.Fine? && r.c.m.Valid()
      && var d, code := Drain(r.c.m, r.c.jobs), c.m.heap[c.m.entries[id]].status.code;
         && d.Both?
         && (id !in All(d.jobs) <==> (code == StatusFinished || code == StatusStopped) && !FailureQueued(c.m, id))
         && (id in All(d.jobs) ==> id in d.jobs.pending)
  {
    var c, a := Now(h), Check(id);
    HistoryKeeps(h);
    NothingFails(h, a);
    ActionKeeps(c, a);
    CheckQueues(c, id);
    var c', e := Do(c, a).c, c.m.heap[c.m.entries[id]];
    assert IdOk(c, id);
    DrainingKeeps(c');
    var reason := if e.status.code == StatusFinished then WorkerFinish
                  else if e.status.code == StatusStopped then WorkerStop else WorkerOffline;
    DrainEnds(c'.(mode := Draining), id, c.m.entries[id], reason);
  }
}
