# Microcosm: the master/worker lifetime protocol and its codec, in Dafny

Microcosm schedules long-running tasks. A master creates workers on executors, watches them through
heartbeats and is called back when they come online, report a status or go away. This project models
that machinery and proves what it is meant to guarantee, for every run and every input.

All instants are integers (nanoseconds) on one clock. A critical section, a dequeued event with its
hook and callback, or an atomic access is one step; a run is any sequence of steps that the code and
the stated conditions allow. Networks may lose, delay, reorder and, where noted, repeat messages.

| file | part of the system |
|---|---|
| `Wrappers`, `Timeouts` | options; the shared time-outs and their adjustment |
| `Varint`, `WireFormat`, `FieldScan`, `Messages` | what the generated protobuf code reads, writes and measures, as functions of bytes |
| `Format`, `UnknownFields` | the same in literal bytes: which byte announces which field, and the grammar of unknown fields |
| `Marshal`, `Unmarshal` | the same code as loops over buffers, indices and fixed-width accumulators |
| `ManagerModel`, `ManagerInvariant`, `ManagerSafety`, `Recovery` | the WorkerManager as a state machine, what every step keeps, what follows |
| `EntryLaws` | what each step does to one entry and to the queue, read off the messages and the clock |
| `WorkerManager` | the WorkerManager and its entries as objects, each method tied to a step of the state machine |
| `Lease`, `LeaseLimits` | manager and workers together: no zombie workers, and exactly when |
| `WorkerExit`, `WorkerSide` | the end of a worker under all interleavings; its objects |
| `Committer`, `Dispatch` | two-phase dispatch, executor side and both sides together |
| `Launch` | dispatch and lease together |
| `JobStates`, `JobTable`, `JobWorkers`, `JobSafety` | the job manager's bookkeeping, alone and driven by the WorkerManager |
| `JobEnds` | which status of its master ends a job |
| `JobHarm`, `JobRuns` | exactly when a late ping or a late failure makes the job manager miss a job, and runs in which it does |
| `SliceQueue`, `TaskRunner`, `ExecutorLease`, `KeyAdapter` | the smaller concurrent parts and the key codec |

## Findings

- **Late starts.** A worker that starts more than `timeout + grace - heartbeat` after its submission
  (17 seconds with the defaults) can be declared offline before its watchdog has looked once, and
  then still ticks. The code bounds this lag nowhere. `LeaseLimits.ZombieFreeIffSafe` gives the exact
  condition on the time-outs, `LateStart` and `SlowWatchDog` the runs beyond it.
- **Stale pings.** Pings carry a worker ID and no incarnation, and job masters keep their ID. A late
  copy of a finished ping takes down the successor (`LeaseLimits.StaleFinishedPing`), exactly if the
  successor has not stopped itself (`LeaseLimits.SafeIffHarmless`). In the job manager a late ping
  does harm at once exactly if it brings online an entry whose dispatch failure is queued
  (`JobHarm.PingMissesIff`), and the failure of the current dispatch ends in ErrWorkerNotFound exactly if
  its entry has left Created by then, through a late ping or by expiry (`JobHarm.FailureMissesIff`;
  `JobRuns.StalePingBreaks` and `JobRuns.LateFailureBreaks` are such runs).
- **Superseded failures.** A failure that becomes known when its incarnation has been replaced misses
  its job or, if the successor waits for its first ping, drops the successor's entry
  (`JobHarm.FailureDropsIff`). The job is then dispatched again beside a worker that runs
  (`JobRuns.SupersededFailureDoubles`). In the lease an abort is followed by no two incarnations that tick
  together exactly if the one it drops has stopped (`LeaseLimits.ApartIffDropsStopped`). A failure known
  within createWorkerTimeout does no harm (`JobRuns.InTimeNeverHarmed`).
- **Cancelling twice.** cancelMu stays held, so that no task is launched any more, exactly if cancelAll
  has been entered twice (`TaskRunner.LockedIffTwice`; `TaskRunner.CancelledTwice` is such a run). The
  source calls it once.
- **Aborted incarnations.** If an abort waits in the queue past the expiry of its entry and the ID is
  started again, cleaning the handle of the old incarnation panics
  (`ManagerSafety.AbortedSuccessorPanics`). Draining the queue before every tick of the job manager
  rules this out there (`JobSafety.NothingFails`).
- **Empty key components.** `path.Join` drops them, so they do not come back
  (`KeyAdapter.RoundTripIff`).

## Model

| member | source | states |
|---|---|---|
| `Varint.SovIsLength` | pb/test.pb.go:497-499 | for every 64-bit value, sov, computed from the bit length, is the number of bytes its varint takes |
| `Varint.VarintAtMostTen` | pb/test.pb.go:364-376 | no varint takes more than the ten bytes a packed element is given |
| `Varint.EncodedValue` | pb/test.pb.go:439-449 | what is written stands for the value: the sum of the low seven bits times powers of 128, with the high bit on all bytes but the last, and no superfluous byte |
| `Varint.ReadValue` | pb/test.pb.go:509-522 | what is read is the value of the varint of at most ten bytes that stands there; ten bytes with the high bit are an overflow, fewer up to the end of the input are too short |
| `Varint.ConversionsWrap` | pb/test.pb.go:532-550 | conversions to 32 and 64 bits keep the value modulo the width |
| `Varint.ReadEncoded` | pb/test.pb.go:509-522 | an encoded 64-bit value, found anywhere in any input, is read back with the index just past it |
| `FieldScan.ReadFieldMoved` | pb/test.pb.go:506-753 | what a complete field is read as depends on its own bytes only, not on its position or on what follows |
| `Messages.RoundTrip` | pb/test.pb.go:347-409 | every Record, Error and NotLeader (negative numbers, packed list, absent or empty nested message) comes back from its own encoding |
| `Messages.EncodeInjective` | pb/error.pb.go:306-337 | different messages of a kind have different encodings |
| `Messages.SizeExact` | pb/test.pb.go:450-484 | Size is exactly the number of bytes written |
| `Messages.DecodeConcat` | pb/test.pb.go:503-759 | if `a` decodes, decoding `a` followed by any `b` is decoding `b` on top of the result of `a`, and fails in the same cases |
| `Messages.UnknownFieldIgnored` | pb/test.pb.go:739-753 | any well-formed unknown field, nested groups included, may stand between two fields without changing the outcome |
| `UnknownFields.UnknownIffNotKnown` | pb/test.pb.go:829-906 | every field of the wire grammar (varint, 8 bytes, length-delimited, group nested to any depth, 4 bytes) is skipped as a whole, and is an unknown field iff its number is not one of the message |
| `Format.RecordScalars` | pb/test.pb.go:532-644 | any varint behind 0x08, 0x10, 0x18, 0x20, 0x28 or 0x30 changes exactly tp, schemaVer, tid, gtid, pk, or appends to timeTracer |
| `Format.RecordTimes` | pb/test.pb.go:627-702 | a packed list behind 0x32 is appended to timeTracer |
| `Format.RecordError` | pb/test.pb.go:703-738 | a message behind 0x3a is merged into err, with its errors |
| `Format.ErrorBytes` | pb/error.pb.go:535-621 | 0x08 is the code of an Error, 0x12 its message, 0x1a its nested NotLeader |
| `Format.NotLeaderBytes` | pb/error.pb.go:421-484 | 0x0a is the request of a NotLeader, 0x12 its leader |
| `Format.WritesRecord` | pb/test.pb.go:347-409 | a Record is written as these bytes and its fields, in this order, zero fields left out |
| `Format.WritesError` | pb/error.pb.go:306-336 | the same for an Error |
| `Format.WritesNotLeader` | pb/error.pb.go:269-289 | the same for a NotLeader |
| `Format.WritesPacked` | pb/test.pb.go:364-376 | the elements of a packed list are written in order, negative ones as their two's complement in 64 bits |
| `Marshal.PutVarint` | pb/test.pb.go:439-449 | fills exactly the bytes before the offset with the varint and returns where it begins |
| `Marshal.PackElements` | pb/test.pb.go:364-376 | the scratch buffer is large enough and ends up holding the packed elements in order |
| `Marshal.MarshalNotLeader` | pb/error.pb.go:269-289 | writes exactly the encoding just before the end of the buffer and nothing else |
| `Marshal.MarshalError` | pb/error.pb.go:306-336 | the same, with the nested message |
| `Marshal.MarshalRecord` | pb/test.pb.go:347-409 | the same, with scalars, packed list and nested message |
| `Marshal.MarshalNew` | pb/test.pb.go:332-340 | a buffer of Size bytes, filled completely, that unmarshals to the record |
| `Unmarshal.VarintLoop` | pb/test.pb.go:509-522 | the shift loop, losing the bits beyond its 32- or 64-bit accumulator, agrees with the unbounded reading modulo that width, and in every error |
| `Unmarshal.SkipLoop` | pb/test.pb.go:829-906 | the skip loop, with its switch on the wire type, its group depth and its wrapped index, computes Skip on every input, within bounds |
| `Unmarshal.PackedLoop` | pb/test.pb.go:682-699 | the packed loop stops where the reading of the payload stops, with its error or index, and appends exactly the elements read, in order |
| `Unmarshal.Unmarshal` | pb/test.pb.go:503-759 | on every input Unmarshal terminates inside the input with the outcome of Decode; success means that exactly all of it was read |
| `ManagerInvariant.HeartbeatKeeps` | lib/master/worker_manager.go:205-276 | a heartbeat keeps the invariant, and panics iff it carries a larger epoch; the ready channel is not closed twice |
| `ManagerInvariant.CheckKeeps` | lib/master/worker_manager.go:452-511 | the expiry check keeps the invariant and never meets an entry it may not mark offline |
| `ManagerInvariant.TickKeeps` | lib/master/worker_manager.go:289-324 | every dequeued event finds its entry in a state its hook allows; cleaning a handle in its callback panics iff the ID has passed to a live successor of an aborted incarnation |
| `ManagerInvariant.StartKeeps` | lib/master/worker_manager.go:329-345 | a new incarnation keeps the invariant |
| `ManagerInvariant.RemoveKeeps` | lib/master/worker_manager.go:573-589 | removal keeps the invariant and panics iff the entry is there and not a tombstone |
| `ManagerInvariant.LoadedShape` | lib/master/worker_manager.go:156-174 | loading gives every unfinished persisted worker one waiting entry, and nothing else |
| `ManagerInvariant.SweepKeeps` | lib/master/worker_manager.go:192-199 | the final sweep of recovery keeps the invariant and leaves no entry waiting |
| `ManagerInvariant.StepKeeps` | lib/master/worker_manager.go:132-589 | every step keeps the invariant and panics exactly in the listed hazards, none of which is a MarkAs method or a second close |
| `ManagerInvariant.RunKeeps` | lib/master/worker_entry.go:99-144 | in every run no MarkAs method panics and every reachable state satisfies the invariant |
| `ManagerSafety.OfflineIffQueuedOnce` | lib/master/worker_manager.go:463-509 | while no error is recorded, an entry is Offline iff exactly one offline event bound to it is queued |
| `ManagerSafety.NoWaitWhenReady` | lib/master/worker_manager.go:456-461 | no entry waits for its first heartbeat once the manager is ready |
| `ManagerSafety.CallbackOrder` | lib/master/worker_manager.go:255-325 | in every run each incarnation is called back as status\* online? status\* offline?, and nothing after offline |
| `ManagerSafety.HandleResolves` | lib/master/worker_handle.go:60-70 | the handle of an online or status callback still leads to its own entry, unless the incarnation was aborted |
| `ManagerSafety.RecoveredNeverOnline` | lib/master/worker_manager.go:232-254 | in every run a recovered worker never yields an online callback |
| `ManagerSafety.ReadyClosedOnce` | lib/master/worker_manager.go:243-254 | in every run allWorkersReady is closed at most once |
| `ManagerSafety.AbortedSuccessorPanics` | lib/master/worker_manager.go:350-375 | a run in which cleaning the handle of an aborted incarnation panics |
| `EntryLaws.StepEntry` | lib/master/worker_manager.go:205-589 | after any step, every field of an entry is what the ping, the check or the delivered event says: a ping of this epoch renews the lease to now + time-out + grace in every phase, the first one sets the node, and nothing else changes them |
| `EntryLaws.StepQueue` | lib/master/worker_manager.go:255-568 | every step queues exactly the event it gives rise to, an offline one with the reason of the status code, if fewer than 1024 are queued, and records an error otherwise |
| `EntryLaws.StartedEntry` | lib/master/worker_manager.go:329-345 | a created worker has a lease from now and the initial status |
| `EntryLaws.LoadedEntry` | lib/master/worker_manager.go:156-174 | a loaded worker has its persisted status and is awaited |
| `EntryLaws.StatusIsLastDelivered` | lib/master/worker_manager.go:378-416 | in every run an entry holds the status last delivered to it, or the one it came with |
| `EntryLaws.QueuedWasSent` | lib/master/worker_manager.go:378-416 | in every run a queued status was sent in the run, in this epoch, when its ID led to that incarnation |
| `Recovery.RecoveredEntries` | lib/master/worker_manager.go:132-202 | after recovery the entries are exactly the unfinished persisted workers; one is a tombstone iff no ping of this epoch arrived between load and sweep or a finished one did, otherwise normal, on the node of its first ping and with a lease from its last |
| `Recovery.RecoveredSurvivesIff` | lib/master/worker_manager.go:230-242 | a worker that pinged between load and sweep, without saying that it has finished, survives exactly the checks up to its last ping + time-out + grace |
| `Recovery.NothingToRecover` | lib/master/worker_manager.go:166-171 | the manager is ready at once iff no unfinished worker is persisted |
| `WorkerManager.WorkerEntry.MarkAsTombstone` | lib/master/worker_entry.go:99-111 | changes the state iff it allows that, otherwise nothing: the panic of the source |
| `WorkerManager.WorkerEntry.MarkAsOnline` | lib/master/worker_entry.go:120-132 | the same |
| `WorkerManager.WorkerEntry.MarkAsOffline` | lib/master/worker_entry.go:134-144 | the same |
| `WorkerManager.WorkerManager.HandleHeartbeat` | lib/master/worker_manager.go:205-276 | on shared entry objects, does the model's step and keeps the coupling; panics iff the epoch is larger |
| `WorkerManager.WorkerManager.OnWorkerStatusUpdateMessage` | lib/master/worker_manager.go:378-416 | the same for status messages |
| `WorkerManager.WorkerManager.BeforeStartingWorker` | lib/master/worker_manager.go:329-345 | the same; panics iff the ID has an entry |
| `WorkerManager.WorkerManager.AbortCreatingWorker` | lib/master/worker_manager.go:350-375 | the same for aborts |
| `WorkerManager.WorkerManager.EnqueueEvent` | lib/master/worker_manager.go:557-568 | appends the event, or records an error when 1024 are queued |
| `WorkerManager.WorkerManager.CheckWorkerEntriesOnce` | lib/master/worker_manager.go:452-511 | in whatever order the map is walked, and with the clock read at each entry, does the model's checks and leaves no entry that is due |
| `WorkerManager.WorkerManager.TickRound` | lib/master/worker_manager.go:289-324 | dequeue, hook on the bound object and clean-up do the model's step; no hook panics |
| `WorkerManager.WorkerManager.Tick` | lib/master/worker_manager.go:280-325 | makes rounds of the model, one after the other, until the queue is empty, the context is done, a callback fails or a clean-up panics, and none once an error is recorded |
| `WorkerManager.WorkerManager.RemoveTombstoneEntry` | lib/master/worker_manager.go:573-589 | does the model's step |
| `WorkerManager.WorkerManager.LoadPersistedWorkers` | lib/master/worker_manager.go:141-174 | loads the given workers, each once, as the model does; panics iff the manager is not loading |
| `WorkerManager.WorkerManager.FinishRecovering` | lib/master/worker_manager.go:192-199 | the sweep over the objects is the model's sweep, and marks nothing it may not |
| `Lease.ExpiredHasStopped` | lib/master/worker_manager.go:471-475 | an entry that has expired or finished belongs to a worker that has stopped ticking and will not start |
| `Lease.AdjustedIsSensible` | lib/config/timeouts.go:22-30 | what the lease asks of a configuration is what Adjust makes of any with a positive heartbeat and no negative durations |
| `Timeouts.AdjustRaises` | lib/config/timeouts.go:22-30 | only a worker time-out below twice the heartbeat and 3 s is changed, to just that |
| `Lease.NextKeeps` | lib/worker.go:431-473 | every action of manager, workers and network keeps the lease invariant: an entry outlives any acknowledgement in flight by time-out and grace |
| `Lease.NoZombie` | lib/worker.go:297-311 | in every run, once the master has taken a worker down, by time-out or finished ping, that worker runs no further Impl.Tick |
| `Lease.OneIncarnation` | lib/master/worker_manager.go:329-345 | in every run two incarnations of one ID can tick together only if one of them was aborted |
| `LeaseLimits.ZombieFreeIffSafe` | lib/config/timeouts.go:14-30 | no run has a zombie iff heartbeat <= grace + 1 ns and start lag + heartbeat <= time-out + grace |
| `LeaseLimits.DefaultsAreSafe` | lib/config/timeouts.go:14-20 | the default time-outs are safe iff workers start within 17 seconds of submission |
| `LeaseLimits.LateStart` | lib/worker.go:226-232 | a late start yields a zombie |
| `LeaseLimits.SlowWatchDog` | lib/worker.go:659-679 | a heartbeat interval beyond the grace yields a zombie |
| `LeaseLimits.FreshIdsNeverStale` | lib/master.go:490-503 | in every run with an ID of its own for every incarnation no ping is stale, whatever the time-outs |
| `LeaseLimits.SafeIffHarmless` | lib/master.go:302-327 | after any run without harm, delivering a ping is followed by no zombie, however things go on, iff it is from the current incarnation, not finished, or that incarnation has stopped |
| `LeaseLimits.ZombieAtOnceIff` | lib/master/worker_manager.go:226-230 | with a check right behind it, a finished ping makes a zombie iff it is stale and the successor ticks |
| `LeaseLimits.ApartIffDropsStopped` | lib/master/worker_manager.go:350-375 | after any run without harm, delivering an abort is followed by no two incarnations of one ID that tick together, however things go on, iff the incarnation it drops, if any, has stopped |
| `Launch.RunProjects` | lib/master.go:565-578 | every run of two-phase dispatch and lease together is a run of the lease, with the submit time that the request carried |
| `Launch.NoZombie` | lib/worker.go:226-232 | no zombie workers, with nothing assumed about submission |
| `Launch.AbortedNeverStarts` | client/task_dispatcher.go:83-92 | in every run a worker whose dispatch was aborted never starts |
| `Launch.OneAtATime` | client/task_dispatcher.go:67-102 | in every run in which aborts reach their own incarnation, no two incarnations of one ID can tick together |
| `LeaseLimits.StaleFinishedPing` | lib/master.go:481-489 | with reused IDs a repeated finished ping yields a zombie, whatever the time-outs |
| `WorkerExit.FatalIsForever` | lib/worker.go:754-783 | in every interleaving an answer other than half-exit carries the first error reported and is given by every later poll |
| `WorkerExit.StateMovesForward` | lib/worker.go:760-797 | in every interleaving the exit state only moves normal, half-exit, exited |
| `WorkerExit.DoneClosedOnce` | pkg/errctx/center.go:30-47 | doneCh is closed at most once, and exactly when there is an error |
| `WorkerExit.PollAnswers` | lib/worker.go:754-783 | an uninterrupted poll is fatal iff there is an error and the worker has exited, or is in half-exit with the master side closed or more than 15 s passed |
| `WorkerSide.ErrCenter.OnError` | pkg/errctx/center.go:30-47 | the first error is kept, nil and later ones change nothing, the channel is not closed twice |
| `WorkerSide.MasterClient.HandleHeartbeat` | lib/worker.go:634-657 | a pong of an earlier epoch is ignored; others acknowledge as the lease says and may raise the epoch |
| `WorkerSide.MasterClient.RefreshMasterInfo` | lib/worker.go:592-614 | the new node and epoch, which never decreases; nothing changes on a failed load, and a failover whose callback fails is an error |
| `WorkerSide.MasterClient.CheckMasterTimeout` | lib/worker.go:659-679 | answers what the lease calls timely, looks the master up exactly in the doubtful range, and fails iff that lookup does |
| `WorkerSide.ExitController.PollExit` | lib/worker.go:754-783 | without interference, a poll is the composition of the atomic steps |
| `WorkerSide.ExitController.ForceExit` | lib/worker.go:788-791 | reports, then exits, as the two atomic steps |
| `WorkerSide.PollIsPolled` | lib/worker.go:754-783 | the poll of the lease does what the exit controller does |
| `WorkerSide.WatchDogForces` | lib/worker.go:455-473 | the watchdog of the lease forces the exit, exactly when the last acknowledgement is too old |
| `Committer.StepKeeps` | executor/worker/task_committer.go:86-203 | both maps stay exact inverses and every prepared request is pending or has left once |
| `Committer.LeavesIff` | executor/worker/task_committer.go:86-185 | a request leaves iff it is confirmed, a newer one of its task is prepared, or it is swept with a clock later than its expiry; otherwise it stays unchanged |
| `Committer.SweepKeepsIff` | executor/worker/task_committer.go:172-185 | a sweep keeps a request, as it is, iff its expiry is not before the clock |
| `Committer.PendingUntilExpiry` | executor/worker/task_committer.go:86-185 | in every run a request prepared at t and left alone is pending iff no sweep since had a clock later than t + TTL |
| `Committer.PrepareResult` | executor/worker/task_committer.go:86-117 | a duplicate ID changes nothing; an accepted request is the one pending for its task |
| `Committer.TaskCommitter.PreDispatchTask` | executor/worker/task_committer.go:86-117 | in place, the step above; refused iff the ID is pending |
| `Committer.TaskCommitter.ConfirmDispatchTask` | executor/worker/task_committer.go:124-143 | the runner gets exactly the prepared task, iff it is pending and there is room |
| `Committer.TaskCommitter.CheckTTLOnce` | executor/worker/task_committer.go:172-185 | the sweep loop keeps exactly the requests whose expiry is not before the clock, read at each |
| `Committer.TaskCommitter.TakeTask` | executor/worker/task_runner.go:118-121 | the runner's loop takes the oldest accepted task |
| `Committer.TaskCommitter.RemoveRequestByID` | executor/worker/task_committer.go:188-203 | removes from both maps; its panics are dead |
| `Dispatch.DispatchTask` | client/task_dispatcher.go:67-218 | attempts go on while the reply is a status other than Aborted and AlreadyExists; the timer is started iff the first other reply is a success, AlreadyExists there is a panic, and the worker is aborted iff its confirmation is answered Aborted or NotFound |
| `Dispatch.FollowsReplies` | client/task_dispatcher.go:67-218 | in every run of dispatcher and executor the dispatcher retries, confirms, panics and aborts exactly as the replies it got so far say |
| `Dispatch.DispatchedAtMostOnce` | client/task_dispatcher.go:67-102 | in every run at most one task is accepted for the worker, only after startWorkerTimer, submitted no later than it, and never if abortWorker is called |
| `Dispatch.AbortIsFinal` | client/task_dispatcher.go:83-92 | once abortWorker is called, no task has been accepted, nor is in any longer run |
| `Dispatch.NoDuplicateReported` | client/task_dispatcher.go:176-178 | with fresh request IDs AlreadyExists is never reported |
| `JobStates.PartitionKept` | servermaster/job_fsm.go:170-270 | a step puts a job into two places iff it submits one that is pending or online |
| `JobStates.JobsConserved` | servermaster/job_fsm.go:170-270 | only JobDispatched adds and only JobOffline without failover removes; metadata never changes |
| `JobStates.JobsPartitioned` | servermaster/job_fsm.go:66-73 | in every run a job is in at most one of the three maps |
| `JobStates.FailedOverOnce` | servermaster/job_fsm.go:201-218 | in every run a job is failed over at most once |
| `JobStates.MarkedIff` | servermaster/job_fsm.go:170-218 | in every run a waiting job is marked for IterWaitAckJobs iff it was dispatched with the failover flag and not dispatched again since |
| `JobTable.JobFsm.DispatchedJob` | servermaster/job_fsm.go:170-177 | in place, the transition of the model |
| `JobTable.JobFsm.IterPendingJobs` | servermaster/job_fsm.go:180-198 | moves exactly the jobs dispatched; all of them without an error, and with one some refused job is still pending |
| `JobTable.JobFsm.IterWaitAckJobs` | servermaster/job_fsm.go:201-218 | dispatches only marked jobs and clears exactly their marks, also when stopped part-way; without an error all of them |
| `JobTable.JobFsm.OnlineJob` | servermaster/job_fsm.go:221-235 | in place, the transition of the model; fails iff the job is not waiting |
| `JobTable.JobFsm.OfflineJob` | servermaster/job_fsm.go:238-256 | in place, the transition of the model |
| `JobTable.JobFsm.DispatchFailedJob` | servermaster/job_fsm.go:259-270 | in place, the transition of the model; fails iff the job is not waiting |
| `JobSafety.FailingIsCurrent` | lib/master.go:570-578 | a confirmation that fails while its entry is still Created fails the current incarnation of a job still waiting |
| `JobSafety.StartKeepsJobs` | lib/master.go:573-577 | BeforeStartingWorker never finds the worker there |
| `JobSafety.DeliverKeeps` | servermaster/jobmanager.go:371-404 | every callback finds its job where it looks for it |
| `JobSafety.NothingFails` | servermaster/jobmanager.go:292-311 | in every run without harmful pings and failures, whatever the delays, no re-dispatch panics, no handle panics and no callback returns ErrWorkerNotFound |
| `JobSafety.JobsMatchWorkers` | servermaster/job_fsm.go:180-270 | in every such run a pending job has no worker entry, an online one has an entry that is Normal or Offline, and every entry has its job |
| `JobEnds.OverIff` | lib/master/worker_manager.go:481-491 | in every run without harm, when an entry is taken down and the queue delivered, its job is over iff the status code at the check was Finished or Stopped and no dispatch failure was queued; otherwise it is pending |
| `JobHarm.DrainKeeps` | lib/master/worker_manager.go:289-324 | delivering all that is queued never fails, and leaves waiting exactly the jobs whose entry, if any, was Created and that had no failure queued |
| `JobHarm.FailureMissesIff` | servermaster/job_fsm.go:259-270 | after any run without harm, a failed confirmation makes the job manager miss the job iff it is not waiting as expected; for the current incarnation, iff its entry has left Created |
| `JobHarm.FailureDropsIff` | lib/master/worker_manager.go:350-375 | after any run without harm, a failure that misses nothing makes the job pending and drops the entry of its ID, which is the incarnation that failed iff the failure is harmless |
| `JobHarm.PingMissesIff` | servermaster/job_fsm.go:221-235 | after any run without harm, a ping, however late, makes the job manager miss a job iff it brings online an entry whose failure is queued |
| `JobRuns.InTimeNeverHarmed` | lib/master.go:84-86 | a run in which failures are known within createWorkerTimeout and pings come from the current incarnation does no harm |
| `JobRuns.InTimeNothingFails` | lib/master.go:537-578 | so in every such run nothing fails |
| `JobRuns.StartedJobReached` | servermaster/jobmanager.go:161-224 | a submitted job reaches the state from which the runs below begin |
| `JobRuns.StalePingBreaks` | lib/master/worker_manager.go:255-275 | a run: a first life up to failover, a second dispatch, a ping of the first life, and a failed confirmation that ends in ErrWorkerNotFound |
| `JobRuns.LateFailureBreaks` | lib/master/worker_manager.go:350-375 | a run: a failure that is known only after expiry ends in ErrWorkerNotFound |
| `JobRuns.SupersededFailureDoubles` | servermaster/jobmanager.go:371-404 | a run: a failure that is known only after failover drops the running successor, and a third incarnation runs beside it |
| `SliceQueue.SliceQueue.Push` | pkg/containers/slice_queue.go:29-50 | appends, despite recycled backing arrays; signals iff the queue was empty |
| `SliceQueue.SliceQueue.Pop` | pkg/containers/slice_queue.go:52-78 | returns the oldest element; signals iff more are left |
| `SliceQueue.NoLostWakeup` | pkg/containers/slice_queue.go:29-78 | in every interleaving a non-empty queue has a signal in C, a pusher about to signal or a consumer at work, and elements leave in the order they came |
| `TaskRunner.PermitsConserved` | executor/worker/task_runner.go:169-222 | in every interleaving each permit is free or held once, by the launcher or an initializing task, and taskCount is the number of live tasks |
| `TaskRunner.NeverMissing` | executor/worker/task_runner.go:224-253 | no goroutine misses its own registry entry |
| `TaskRunner.LoopsIff` | executor/worker/task_runner.go:208-253 | in every run a task loops iff its initialization has succeeded and its loop has not ended; one whose initialization fails never does |
| `TaskRunner.CancelledForGood` | executor/worker/task_runner.go:150-167 | after cancelAll every registered task is cancelled |
| `TaskRunner.LockedIffTwice` | executor/worker/task_runner.go:150-167 | in every run the mutex stays held iff cancelAll was entered twice; a task with a permit can go on to the registry iff it was not; nobody enters a third time |
| `TaskRunner.CancelledTwice` | executor/worker/task_runner.go:150-154 | a run with two calls of cancelAll, a task with its permit waiting |
| `TaskRunner.LockedForGood` | executor/worker/task_runner.go:150-167 | from then on, in every run, no task is registered |
| `TaskRunner.NoRegistrationAfterCancel` | executor/worker/task_runner.go:195-206 | after cancelAll no task is registered any more |
| `ExecutorLease.LeaderWaitsLonger` | executor/server.go:601-641 | in every run with an answered heartbeat the leader's deadline is later than last heartbeat + TTL + RPC time-out, less 2 ms |
| `ExecutorLease.BuriedAfterGivingUp` | servermaster/executor_manager.go:188-203 | when the leader declares the executor dead, the executor's own check has failed (RPC time-out of at least 2 ms) |
| `ExecutorLease.BuriedIff` | servermaster/executor_manager.go:188-203 | in every run a check declares a live executor dead iff its time-to-live is over since it was last heard, and changes nothing otherwise |
| `ExecutorLease.SendsIff` | executor/server.go:601-641 | in every run the executor goes on sending iff its keep-alive time is not over since its last answer |
| `ExecutorLease.TombstoneAbsorbs` | servermaster/executor_manager.go:103-106 | in every run a tombstone keeps its record for good |
| `ExecutorLease.ExecutorRecord.HandleHeartbeat` | servermaster/executor_manager.go:101-117 | in place, the step of the model |
| `ExecutorLease.ExecutorRecord.CheckAlive` | servermaster/executor_manager.go:188-203 | in place, the step of the model |
| `KeyAdapter.HexRoundTrip` | pkg/adapter/keyadapter.go:42-64 | hex decoding undoes hex encoding |
| `KeyAdapter.HexDigitsOf` | pkg/adapter/keyadapter.go:42-49 | each byte is written as its two base-16 digits, high digit first, in lower case |
| `KeyAdapter.DecodeEncode` | pkg/adapter/keyadapter.go:39-67 | what comes back is the list without its empty components |
| `KeyAdapter.RoundTripIff` | pkg/adapter/keyadapter.go:39-67 | Decode undoes Encode iff the list is not empty and has no empty component |
| `KeyAdapter.EncodeInjective` | pkg/adapter/keyadapter.go:39-49 | two lists have the same key iff they differ in empty components only |
| `KeyAdapter.CurryEncode` | pkg/adapter/keyadapter.go:73-79 | Curry(a).Encode(b) is Encode(a ++ b), for all lists |
| `KeyAdapter.NoCollision` | pkg/adapter/keyadapter.go:12-27 | keys of two different adapters never collide |

## How the parts fit

What one part relies on, another proves. The lease relies on a submit time no later than
BeforeStartingWorker; in `Launch` two-phase dispatch delivers it, and every run of both together is a
run of the lease. The job manager relies on an aborted worker never running, which is
`Dispatch.AbortIsFinal` and, with the lease, `Launch.AbortedNeverStarts`. The lease and the job manager
contain the WorkerManager's steps themselves and use its invariant, `ManagerInvariant.StepKeeps`; the
objects of `WorkerManager` do exactly these steps. The exit states and acknowledgements of the lease
are those of `WorkerSide`, and `WorkerExit` shows what they do under interference.

## Conditions

- *Lease*: one master epoch; the watchdog looks at least every heartbeat interval; no finished ping
  reaches a later incarnation of its ID that has not stopped (automatic with fresh IDs). For one
  incarnation at a time, an abort is delivered before its ID has passed to a successor.
- *Manager*: no worker is created or aborted before recovery is over.
- *Dispatch*: request IDs are fresh, every request reaches the executor at most once, and no other
  call dispatches the same worker meanwhile.
- *Jobs*: the metastore answers, the event queue does not overflow, a job is recorded before its
  callbacks, and all queued events are delivered before the job manager ticks; failures and pings are
  harmless in the exact sense above, which being in time guarantees.
- *Worker exit*: one goroutine polls.

## Left out

- `Lease`, `WorkerExit`, `Dispatch`, `JobWorkers` and `TaskRunner` are state machines on values, because interleavings are their subject; the objects they abstract from are in `WorkerManager`, `WorkerSide`, `Committer` and `JobTable`, but the goroutines of `TaskRunner` and the keep-alive loop of the executor have no object of their own here.
- Messages.RoundTrip: messages whose encoding has 2^63 bytes or more, which no Go slice can hold.
- Messages.DecodeConcat: the fields already set when Unmarshal fails part-way are not part of the outcome, nor is the kind of error, which can depend on the position.
- WorkerManager.WorkerManager.Tick: what callbacks do besides cleaning their handle.
- TaskRunner.PermitsConserved: storing a task in the registry and raising taskCount are one step.
- Launch.RunProjects: every call has its own view of the executor it talks to; other calls appear in it as other traffic.
- The text of errors, worker status beyond its code and message, and the metastore behind CleanTombstone.
- The lease across a master failover: a pong is sent whether or not the manager listens to the ping.
- "Every CreateWorker ends in a callback" and the quota of CreateWorker: a failed prepare calls no abort.
- The job manager's first ticks after a failover: tombstones are cleaned and waiting jobs dispatched there under other conditions; only conservation of jobs is stated for them.
- The executor lease during MasterNotReady replies, re-registration, and removal of dead executors.
- GetWorkers, Peek, Size, JobCount, QueryJob and other lookups, which change nothing that the results here speak of, and the deprecated AddTask.
- gRPC, etcd and ORM clients, leader election, configuration, metrics, message routing, the scheduler and resource manager, and the job masters for data migration.
- The other generated protobuf messages, which have the same shapes.
