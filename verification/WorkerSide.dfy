/** The objects of a worker: its error center, its view of the master and its exit controller. */
module WorkerSide {
  import opened Timeouts
  import opened Wrappers
  import opened ManagerModel
  import L = Lease
  import opened WorkerExit

  /** Keeps the first error it receives. */
  class ErrCenter {
    var errVal: Option<Failure>
    var doneClosed: bool
    ghost var received: seq<Failure>

    ghost predicate Valid()
      reads this
    {
      errVal == (if |received| == 0 then None else Some(received[0])) && doneClosed == errVal.Some?
    }

    constructor ()
      ensures Valid() && received == []
    {
      errVal, doneClosed, received := None, false, [];
    }

    /** A nil error is ignored; so is any but the first, and doneCh is closed only then. */
    method OnError(err: Option<Failure>)
      requires Valid()
      modifies this
      ensures Valid() && received == (if err.Some? then old(received) + [err.value] else old(received))
      ensures old(errVal).Some? ==> errVal == old(errVal)
    {
      if err.None? { return; }
      received := received + [err.value];
      if errVal.Some? { return; }
      errVal := err;
      if doneClosed { assert false; }
      doneClosed := true;
    }
  }

  /** What the metastore holds of a master. */
  datatype MasterMeta = MasterMeta(node: ExecutorID, epoch: int)

  /** What the worker knows of its master. */
  class MasterClient {
    const timeouts: TimeoutConfig
    var masterNode: ExecutorID
    var masterEpoch: int
    var lastMasterAckedPingTime: Time
    var masterSideClosed: bool

    constructor (timeouts: TimeoutConfig, node: ExecutorID, epoch: int, initTime: Time)
      ensures this.timeouts == timeouts && masterNode == node && masterEpoch == epoch
      ensures lastMasterAckedPingTime == initTime && !masterSideClosed
    {
      this.timeouts, masterNode, masterEpoch := timeouts, node, epoch;
      lastMasterAckedPingTime, masterSideClosed := initTime, false;
    }

    /** The worker as the lease sees it, apart from what the exit controller keeps. */
    ghost function Seen(w: L.Worker): L.Worker
      reads this
    {
      w.(lastAck := lastMasterAckedPingTime, masterSideClosed := masterSideClosed)
    }

    /** A pong of an earlier epoch is ignored; others are what Acked says, and may name a new master. */
    method HandleHeartbeat(sender: ExecutorID, pong: L.Pong, epoch: int, ghost w: L.Worker)
      requires Seen(w) == w
      modifies this
      ensures epoch < old(masterEpoch) ==> Seen(w) == w
      ensures epoch >= old(masterEpoch) ==> Seen(L.Acked(w, pong)) == L.Acked(w, pong)
      ensures masterEpoch == (if epoch > old(masterEpoch) then epoch else old(masterEpoch))
      ensures masterNode == (if epoch > old(masterEpoch) then sender else old(masterNode))
    {
      if epoch < masterEpoch { return; }
      if epoch > masterEpoch {
        masterEpoch := epoch;
        masterNode := sender;
      }
      if pong.finished { masterSideClosed := true; }
      lastMasterAckedPingTime := pong.sendTime;
    }

    /**
     Loads the master's node and epoch anew; without them (a failed load) nothing changes. A larger epoch
     means that the master has failed over, and the callback for that may fail in turn.
     */
    method RefreshMasterInfo(meta: Option<MasterMeta>, failoverOk: bool) returns (ok: bool)
      modifies this`masterNode, this`masterEpoch
      ensures meta == None ==> !ok && masterNode == old(masterNode) && masterEpoch == old(masterEpoch)
      ensures meta.Some? ==>
        && masterNode == meta.value.node
        && masterEpoch == (if old(masterEpoch) < meta.value.epoch then meta.value.epoch else old(masterEpoch))
        && ok == (old(masterEpoch) < meta.value.epoch ==> failoverOk)
    {
      if meta == None { return false; }
      masterNode := meta.value.node;
      if masterEpoch < meta.value.epoch {
        masterEpoch := meta.value.epoch;
        return failoverOk;
      }
      ok := true;
    }

    /**
     Answers what the lease calls timely, and looks the master up again in the doubtful range. A failed
     lookup is an error there, and nowhere else.
     */
    method CheckMasterTimeout(now: Time, meta: Option<MasterMeta>, failoverOk: bool) returns (ok: bool, failed: bool)
      modifies this`masterNode, this`masterEpoch
      ensures ok || failed <==> L.MasterTimely(timeouts, now - lastMasterAckedPingTime)
      ensures var since := now - lastMasterAckedPingTime;
        ok || failed <==> since <= 2 * timeouts.heartbeat || since < timeouts.workerTimeout
      ensures !(ok && failed) && masterEpoch >= old(masterEpoch)
      ensures var doubtful := 2 * timeouts.heartbeat < now - lastMasterAckedPingTime < timeouts.workerTimeout;
        && (failed <==> doubtful && (meta == None || (old(masterEpoch) < meta.value.epoch && !failoverOk)))
        && (!doubtful ==> masterNode == old(masterNode) && masterEpoch == old(masterEpoch))
    {
      var since := now - lastMasterAckedPingTime;
      if since <= 2 * timeouts.heartbeat { return true, false; }
      if since < timeouts.workerTimeout {
        var refreshed := RefreshMasterInfo(meta, failoverOk);
        return refreshed, !refreshed;
      }
      return false, false;
    }
  }

  class ExitController {
    const errCenter: ErrCenter
    const masterClient: MasterClient
    var workerExitFsm: ExitFsm
    var halfExitTime: Time

    constructor (errCenter: ErrCenter, masterClient: MasterClient)
      ensures this.errCenter == errCenter && this.masterClient == masterClient
      ensures workerExitFsm == NormalExit
    {
      this.errCenter, this.masterClient := errCenter, masterClient;
      workerExitFsm, halfExitTime := NormalExit, 0;
    }

    /** The state between two polls. */
    ghost function View(now: Time): Exit
      reads this, errCenter, masterClient
    {
      Exit(now, errCenter.errVal, if errCenter.doneClosed then 1 else 0, workerExitFsm, halfExitTime,
           masterClient.masterSideClosed, Idle, 0, errCenter.received, [])
    }

    /** PollExit without interference is the poll of the step-wise model. */
    method PollExit(now: Time) returns (answer: Answer)
      requires errCenter.Valid()
      modifies this
      ensures PollAll(old(View(now))) == View(now).(answers := [answer])
      ensures answer == GoOn <==> errCenter.errVal == None
      ensures answer.Fatal? ==> Some(answer.err) == errCenter.errVal
      ensures answer.Fatal? <==>
        && errCenter.errVal.Some?
        && (old(workerExitFsm) == Exited
            || (old(workerExitFsm) == HalfExit
                && (masterClient.masterSideClosed || now - old(halfExitTime) > 15_000_000_000)))
    {
      if errCenter.errVal == None { return GoOn; }
      var err := errCenter.errVal.value;
      match workerExitFsm
      case NormalExit =>
        workerExitFsm := HalfExit;
        halfExitTime := now;
        return HalfWay;
      case HalfExit =>
        if masterClient.masterSideClosed {
          workerExitFsm := Exited;
          return Fatal(err);
        }
        if now - halfExitTime > WAIT_FOR_MASTER { return Fatal(err); }
        return HalfWay;
      case Exited =>
        return Fatal(err);
    }

    /** Ends the worker at once; the next poll is fatal. */
    method ForceExit(err: Failure)
      requires errCenter.Valid()
      modifies this, errCenter
      ensures errCenter.Valid() && errCenter.received == old(errCenter.received) + [err]
      ensures workerExitFsm == Exited && errCenter.errVal.Some? && halfExitTime == old(halfExitTime)
      ensures forall now :: View(now) == Do(Do(old(View(now)), ForceReport(err)), ForceStore)
    {
      errCenter.OnError(Some(err));
      workerExitFsm := Exited;
    }
  }

  /** The exit state of the lease. */
  function StateOf(fsm: ExitFsm): L.ExitState {
    match fsm
    case NormalExit => L.WorkerNormal
    case HalfExit => L.WorkerHalfExit
    case Exited => L.WorkerExited
  }

  /** The lease's poll does to a worker what the exit controller does. */
  lemma PollIsPolled(x: Exit, w: L.Worker)
    requires x.poll.Idle? && w.exit == StateOf(x.fsm)
    requires w.errored == x.errVal.Some? && w.masterSideClosed == x.closed
    ensures L.Polled(w) == w.(exit := StateOf(PollAll(x).fsm))
  {
    PollAnswers(x);
  }

  /** A round of the lease's watchdog forces the exit, exactly when no acknowledgement is recent enough. */
  lemma WatchDogForces(t: TimeoutConfig, w: L.Worker, now: Time, x: Exit, err: Failure)
    requires w.exit == StateOf(x.fsm) && w.errored == x.errVal.Some?
    ensures var since, x' := now - w.lastAck, Do(Do(x, ForceReport(err)), ForceStore);
      L.Watched(t, w, now)
      == if since <= 2 * t.heartbeat || since < t.workerTimeout then w.(lastWatch := now)
         else w.(lastWatch := now, errored := x'.errVal.Some?, exit := StateOf(x'.fsm))
  {}
}
