/** JobFsm as the job manager holds it: three maps updated in place, and loops that dispatch jobs again. */
module JobTable {
  import opened ManagerModel
  import opened JobStates

  /** IterPendingJobs after the jobs `done` have been dispatched. */
  function RedispatchedAll(s: Jobs, done: set<WorkerID>): Jobs
    requires done <= s.pending.Keys
  {
    s.(pending := s.pending - done, waitAck := s.waitAck + map id | id in done :: Holder(s.pending[id], false))
  }

  /** IterWaitAckJobs after the jobs `done` have been dispatched. */
  function FailedOverAll(s: Jobs, done: set<WorkerID>): Jobs
    requires done <= s.waitAck.Keys
  {
    s.(waitAck := map id | id in s.waitAck ::
         if id in done then s.waitAck[id].(failover := false) else s.waitAck[id],
       failedOver := s.failedOver + done)
  }

  lemma RedispatchedOneMore(s: Jobs, done: set<WorkerID>, id: WorkerID)
    requires done <= s.pending.Keys && id in s.pending && id !in done
    ensures id in RedispatchedAll(s, done).pending
    ensures Redispatched(RedispatchedAll(s, done), id) == RedispatchedAll(s, done + {id})
  {
    assert s.pending - (done + {id}) == (s.pending - done) - {id};
  }

  lemma FailedOverOneMore(s: Jobs, done: set<WorkerID>, id: WorkerID)
    requires done <= s.waitAck.Keys && id in s.waitAck && id !in done
    ensures FailedOver(FailedOverAll(s, done), id) == FailedOverAll(s, done + {id})
  {
    assert s.failedOver + done + {id} == s.failedOver + (done + {id});
  }

  class JobFsm {
    var pendingJobs: map<WorkerID, JobMeta>
    var waitAckJobs: map<WorkerID, Holder>
    var onlineJobs: map<WorkerID, Holder>
    ghost var failedOver: set<WorkerID>

    ghost function Abstract(): Jobs
      reads this
    {
      Jobs(pendingJobs, waitAckJobs, onlineJobs, failedOver)
    }

    constructor ()
      ensures Abstract() == NO_JOBS
    {
      pendingJobs, waitAckJobs, onlineJobs := map[], map[], map[];
      failedOver := {};
    }

    method DispatchedJob(id: WorkerID, meta: JobMeta, addFromFailover: bool)
      modifies this
      ensures Abstract() == JobDispatched(old(Abstract()), id, meta, addFromFailover)
    {
      waitAckJobs := waitAckJobs[id := Holder(meta, addFromFailover)];
    }

    /**
     Dispatches pending jobs in any order until one dispatch fails. `done` are those dispatched; each
     has moved once, and with an error some pending job was refused.
     */
    method IterPendingJobs(accepts: WorkerID -> bool) returns (ok: bool, done: set<WorkerID>)
      modifies this
      ensures done <= old(pendingJobs).Keys && (forall id :: id in done ==> accepts(id))
      ensures Abstract() == RedispatchedAll(old(Abstract()), done)
      ensures ok ==> pendingJobs == map[]
      ensures !ok ==> exists id :: id in pendingJobs && !accepts(id)
    {
      ghost var before := Abstract();
      done := {};
      while pendingJobs != map[]
        invariant done <= before.pending.Keys && (forall id :: id in done ==> accepts(id))
        invariant Abstract() == RedispatchedAll(before, done)
        decreases pendingJobs.Keys
      {
        var id :| id in pendingJobs;
        if !accepts(id) { return false, done; }
        RedispatchedOneMore(before, done, id);
        waitAckJobs := waitAckJobs[id := Holder(pendingJobs[id], false)];
        pendingJobs := pendingJobs - {id};
        done := done + {id};
      }
      ok := true;
    }

    /** Dispatches the jobs loaded at failover, each once, until one dispatch fails. */
    method IterWaitAckJobs(accepts: WorkerID -> bool) returns (ok: bool, done: set<WorkerID>)
      modifies this
      ensures done <= old(waitAckJobs).Keys
      ensures forall id :: id in done ==> accepts(id) && old(waitAckJobs)[id].failover
      ensures Abstract() == FailedOverAll(old(Abstract()), done)
      ensures ok ==> forall id :: id in waitAckJobs ==> !waitAckJobs[id].failover
      ensures ok ==> forall id :: id in old(waitAckJobs) && old(waitAckJobs)[id].failover ==> id in done
      ensures !ok ==> exists id :: id in waitAckJobs && waitAckJobs[id].failover && !accepts(id)
    {
      ghost var before := Abstract();
      done := {};
      assert FailedOverAll(before, {}) == before;
      var todo := waitAckJobs.Keys;
      while todo != {}
        invariant done <= before.waitAck.Keys && todo <= before.waitAck.Keys && done !! todo
        invariant forall id :: id in done ==> accepts(id) && before.waitAck[id].failover
        invariant Abstract() == FailedOverAll(before, done)
        invariant forall id :: id in waitAckJobs && waitAckJobs[id].failover ==> id in todo
        decreases todo
      {
        var id :| id in todo;
        todo := todo - {id};
        if waitAckJobs[id].failover {
          if !accepts(id) { return false, done; }
          FailedOverOneMore(before, done, id);
          waitAckJobs := waitAckJobs[id := waitAckJobs[id].(failover := false)];
          failedOver := failedOver + {id};
          done := done + {id};
        }
      }
      ok := true;
    }

    method OnlineJob(id: WorkerID) returns (found: bool)
      modifies this
      ensures found == (id in old(waitAckJobs)) && Abstract() == JobOnline(old(Abstract()), id)
    {
      if id !in waitAckJobs { return false; }
      onlineJobs := onlineJobs[id := Holder(waitAckJobs[id].meta, false)];
      waitAckJobs := waitAckJobs - {id};
      found := true;
    }

    method OfflineJob(id: WorkerID, needFailover: bool)
      modifies this
      ensures Abstract() == JobOffline(old(Abstract()), id, needFailover)
    {
      var job: Holder;
      if id in onlineJobs {
        job := onlineJobs[id];
        onlineJobs := onlineJobs - {id};
      } else if id in waitAckJobs {
        job := waitAckJobs[id];
        waitAckJobs := waitAckJobs - {id};
      } else {
        return;
      }
      if needFailover { pendingJobs := pendingJobs[id := job.meta]; }
    }

    method DispatchFailedJob(id: WorkerID) returns (found: bool)
      modifies this
      ensures found == (id in old(waitAckJobs)) && Abstract() == JobDispatchFailed(old(Abstract()), id)
    {
      if id !in waitAckJobs { return false; }
      pendingJobs := pendingJobs[id := waitAckJobs[id].meta];
      waitAckJobs := waitAckJobs - {id};
      found := true;
    }
  }
}
