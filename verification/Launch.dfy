/**
 Dispatch and lease together: workers come to life through two-phase dispatch, and the time their lease
 counts from travels with the prepared request. Every run of the whole is a run of the lease, so the
 lease's guarantees hold with nothing assumed about submission.
 */
module Launch {
  import opened Timeouts
  import opened Wrappers
  import opened ManagerModel
  import opened ManagerInvariant
  import C = Committer
  import D = Dispatch
  import L = Lease
  import Limits = LeaseLimits

  /** A call of DispatchTask and, once startWorkerTimer has been called, the incarnation it created. */
  datatype Attempt = Attempt(call: D.Call, ref: Option<nat>)

  datatype World = World(s: L.System, attempts: seq<Attempt>)

  datatype Event =
    | BeginCall(call: D.Call)
    | CallMove(j: nat, move: D.Move)
    | StartTimer(j: nat, executor: ExecutorID)
    | StartTask(j: nat, i: nat)
    | Pass(until: Time)
    | LeaseAction(action: L.Action)

  function IdOf(call: D.Call): WorkerID { WorkerID(call.worker.name) }

  /** The submit time the prepared request carries; a request that is gone will start nobody. */
  function SubmitTime(call: D.Call): Time {
    if call.client.Acknowledged? && call.client.id in call.executor.pending
    then call.executor.pending[call.client.id].submitted else call.now
  }

  predicate Enabled(c: L.LeaseConfig, w: World, e: Event) {
    match e
    case BeginCall(call) => D.Fresh(call) && call.now == w.s.now
    case CallMove(j, mv) =>
      j < |w.attempts| && !mv.Pass? && !mv.StartTimer? && D.Enabled(w.attempts[j].call, mv)
    case StartTimer(j, _) => j < |w.attempts| && D.Enabled(w.attempts[j].call, D.StartTimer)
    case StartTask(j, i) =>
      && j < |w.attempts| && w.attempts[j].ref.Some?
      && var call, ref := w.attempts[j].call, w.attempts[j].ref.value;
         && i < |call.tasks| && call.tasks[i].task == call.worker
         && ref in w.s.workers && !w.s.workers[ref].started && w.s.now <= call.tasks[i].submitted + c.startLag
    case Pass(_) => true
    case LeaseAction(a) =>
      !a.Submit? && !a.StartWorker? && !a.Pass? && !(a.ManagerStep? && a.step.AbortStep?)
  }

  function Put(w: World, j: nat, a: Attempt): World
    requires j < |w.attempts|
  {
    w.(attempts := w.attempts[j := a])
  }

  /** A worker process begins with the submit time of its task as the time of its last acknowledgement. */
  function Begun(w: L.Worker, submitted: Time, now: Time): L.Worker {
    w.(submitted := submitted, lastAck := submitted, best := submitted, started := true, lastWatch := now)
  }

  ghost predicate Next(c: L.LeaseConfig, w: World, e: Event, w': World)
    requires w.s.m.Valid() && Enabled(c, w, e)
  {
    match e
    case BeginCall(call) => w' == w.(attempts := w.attempts + [Attempt(call, None)])
    case CallMove(j, mv) =>
      var call' := D.Made(w.attempts[j].call, mv);
      var abort := call'.aborted && !w.attempts[j].call.aborted;
      w' == Put(w, j, w.attempts[j].(call := call'))
              .(s := if abort then w.s.(m := AbortCreating(w.s.m, IdOf(call'))) else w.s)
    case StartTimer(j, executor) =>
      var call := w.attempts[j].call;
      var r, t := BeforeStarting(w.s.m, IdOf(call), executor, w.s.now), SubmitTime(call);
      && r.Went?
      && w' == Put(w, j, Attempt(D.Made(call, D.StartTimer), Some(|w.s.m.heap|)))
                 .(s := w.s.(m := r.m, workers := w.s.workers[|w.s.m.heap| :=
                     L.Worker(IdOf(call), t, false, t, t, t, false, L.WorkerNormal, false)]))
    case StartTask(j, i) =>
      var ref := w.attempts[j].ref.value;
      w' == w.(s := w.s.(workers := w.s.workers[ref :=
              Begun(w.s.workers[ref], w.attempts[j].call.tasks[i].submitted, w.s.now)]))
    case Pass(until) =>
      && L.Next(c, w.s, L.Pass(until), w'.s)
      && |w'.attempts| == |w.attempts|
      && forall j :: 0 <= j < |w.attempts| ==>
           w'.attempts[j] == w.attempts[j].(call := w.attempts[j].call.(now := until))
    case LeaseAction(a) => L.Next(c, w.s, a, w'.s) && w'.attempts == w.attempts
  }

  // ---------------------------------------------------------------- the time a request carries

  /** A request that may still be accepted, and a task that was, carry the submit time `t`. */
  predicate Carries(call: D.Call, t: Time) {
    && (call.confirm.InFlight? && call.confirm.id in call.executor.pending ==>
          call.executor.pending[call.confirm.id].submitted == t)
    && (forall i :: 0 <= i < |call.tasks| && call.tasks[i].task == call.worker ==> call.tasks[i].submitted == t)
  }

  /** The request being confirmed is not changed by anything; it can only go. */
  lemma ConfirmingStays(call: D.Call, mv: D.Move)
    requires D.CallInv(call) && D.Enabled(call, mv) && call.confirm.InFlight? && D.Made(call, mv).confirm == call.confirm
    requires call.confirm.id in D.Made(call, mv).executor.pending
    ensures call.confirm.id in call.executor.pending
    ensures D.Made(call, mv).executor.pending[call.confirm.id] == call.executor.pending[call.confirm.id]
  {
    match mv
    case ArrivePrepare(id, taskMade) =>
      if taskMade {
        PrepareStays(call.executor, C.Request(id, call.worker, call.now, call.now + call.ttl), call.confirm.id);
      }
    case OtherPrepare(request) => PrepareStays(call.executor, request, call.confirm.id);
    case _ =>
  }

  lemma PrepareStays(s: C.State, request: C.Request, r: C.RequestID)
    requires C.Inv(s) && r != request.id && r in C.Prepare(s, request).pending
    ensures r in s.pending && C.Prepare(s, request).pending[r] == s.pending[r]
  {
    C.PrepareResult(s, request);
  }

  lemma CarriesKept(call: D.Call, mv: D.Move, t: Time)
    requires D.CallInv(call) && D.Enabled(call, mv) && !mv.StartTimer? && Carries(call, t)
    requires !call.confirm.NotSent?
    ensures Carries(D.Made(call, mv), t)
  {
    var call' := D.Made(call, mv);
    if call.confirm.InFlight? && call'.confirm == call.confirm && call.confirm.id in call'.executor.pending {
      ConfirmingStays(call, mv);
    }
    if mv.ArriveConfirm? {
      assert forall i :: 0 <= i < |call'.tasks| ==>
        call'.tasks[i] == if i < |call.tasks| then call.tasks[i] else call.executor.pending[call.confirm.id];
    }
    if mv.OtherConfirm? {
      assert forall i :: |call.tasks| <= i < |call'.tasks| ==> call'.tasks[i] == call.executor.pending[mv.id];
    }
  }

  // ---------------------------------------------------------------- the invariant

  predicate HasTask(call: D.Call) {
    exists i :: 0 <= i < |call.tasks| && call.tasks[i].task == call.worker
  }

  /** The worker counts from the submit time of its request, and runs only if that was accepted. */
  predicate WorkerOf(call: D.Call, w: L.Worker) {
    && Carries(call, w.submitted) && (w.started ==> HasTask(call))
    && (!w.started ==> w.lastAck == w.submitted && w.best == w.submitted)
  }

  ghost predicate AttemptOk(w: World, j: nat)
    requires j < |w.attempts|
  {
    var a := w.attempts[j];
    && D.CallInv(a.call) && a.call.now == w.s.now && (a.ref.Some? <==> a.call.started.Some?)
    && (a.ref.Some? ==> a.ref.value in w.s.workers && WorkerOf(a.call, w.s.workers[a.ref.value]))
  }

  ghost predicate WorldInv(w: World) {
    && w.s.m.Valid()
    && (forall ref :: ref in w.s.workers ==> ref < |w.s.m.heap|)
    && (forall j: nat :: j < |w.attempts| ==> AttemptOk(w, j))
    && (forall j, j' :: 0 <= j < j' < |w.attempts| ==>
          w.attempts[j].ref.Some? && w.attempts[j'].ref.Some? ==> w.attempts[j].ref != w.attempts[j'].ref)
  }

  lemma BeginKeeps(c: L.LeaseConfig, w: World, e: Event, w': World)
    requires WorldInv(w) && e.BeginCall? && Enabled(c, w, e) && Next(c, w, e, w')
    ensures WorldInv(w')
  {
    forall j: nat | j < |w'.attempts| ensures AttemptOk(w', j) {
      if j < |w.attempts| { assert AttemptOk(w, j); }
    }
  }

  /** Accepted tasks are never taken back. */
  lemma TasksGrow(call: D.Call, mv: D.Move)
    requires D.Enabled(call, mv)
    ensures call.tasks <= D.Made(call, mv).tasks && D.Made(call, mv).worker == call.worker
    ensures HasTask(call) ==> HasTask(D.Made(call, mv))
  {
    if HasTask(call) {
      var i :| 0 <= i < |call.tasks| && call.tasks[i].task == call.worker;
      assert D.Made(call, mv).tasks[i] == call.tasks[i];
    }
  }

  lemma MovedOk(c: L.LeaseConfig, w: World, e: Event, w': World)
    requires WorldInv(w) && e.CallMove? && Enabled(c, w, e) && Next(c, w, e, w')
    ensures |w'.attempts| == |w.attempts| && AttemptOk(w', e.j)
  {
    var a := w.attempts[e.j];
    assert AttemptOk(w, e.j);
    D.MoveKeeps(a.call, e.move);
    TasksGrow(a.call, e.move);
    if a.ref.Some? { CarriesKept(a.call, e.move, w.s.workers[a.ref.value].submitted); }
  }

  lemma MoveKeeps(c: L.LeaseConfig, w: World, e: Event, w': World)
    requires WorldInv(w) && e.CallMove? && Enabled(c, w, e) && Next(c, w, e, w')
    ensures WorldInv(w')
  {
    MovedOk(c, w, e, w');
    forall j: nat | j < |w'.attempts| ensures AttemptOk(w', j) {
      if j != e.j { assert AttemptOk(w, j); }
    }
  }

  /** At startWorkerTimer the request is as prepared, if it is still there. */
  lemma TimerCarries(call: D.Call)
    requires D.CallInv(call) && D.Enabled(call, D.StartTimer)
    ensures Carries(D.Made(call, D.StartTimer), SubmitTime(call)) && SubmitTime(call) <= call.now
    ensures call.started.None? && D.Made(call, D.StartTimer).started.Some?
  {}

  lemma TimedOk(c: L.LeaseConfig, w: World, e: Event, w': World)
    requires WorldInv(w) && e.StartTimer? && Enabled(c, w, e) && Next(c, w, e, w')
    ensures |w'.attempts| == |w.attempts| && AttemptOk(w', e.j)
  {
    var a := w.attempts[e.j];
    assert AttemptOk(w, e.j);
    TimerCarries(a.call);
    D.MoveKeeps(a.call, D.StartTimer);
  }

  lemma TimerKeeps(c: L.LeaseConfig, w: World, e: Event, w': World)
    requires WorldInv(w) && e.StartTimer? && Enabled(c, w, e) && Next(c, w, e, w')
    ensures WorldInv(w')
  {
    TimedOk(c, w, e, w');
    forall j: nat | j < |w'.attempts| ensures AttemptOk(w', j) {
      if j != e.j { assert AttemptOk(w, j); }
    }
    TimerRefs(w, e.j, w');
  }

  /** The incarnation is new, so no other attempt has it. */
  lemma TimerRefs(w: World, k: nat, w': World)
    requires WorldInv(w) && k < |w.attempts| && |w'.attempts| == |w.attempts| && w'.attempts[k].ref == Some(|w.s.m.heap|)
    requires forall j :: 0 <= j < |w.attempts| && j != k ==> w'.attempts[j] == w.attempts[j]
    ensures forall j, j' :: 0 <= j < j' < |w'.attempts| ==>
      w'.attempts[j].ref.Some? && w'.attempts[j'].ref.Some? ==> w'.attempts[j].ref != w'.attempts[j'].ref
  {
    forall j: nat | j < |w.attempts| ensures w.attempts[j].ref != Some(|w.s.m.heap|) { assert AttemptOk(w, j); }
  }

  lemma TaskKeeps(c: L.LeaseConfig, w: World, e: Event, w': World)
    requires WorldInv(w) && e.StartTask? && Enabled(c, w, e) && Next(c, w, e, w')
    ensures WorldInv(w')
    ensures L.Next(c, w.s, L.StartWorker(w.attempts[e.j].ref.value), w'.s)
  {
    assert AttemptOk(w, e.j);
    forall j: nat | j < |w'.attempts| ensures AttemptOk(w', j) {
      assert AttemptOk(w, j);
    }
  }

  lemma PassKeeps(c: L.LeaseConfig, w: World, e: Event, w': World)
    requires WorldInv(w) && e.Pass? && Enabled(c, w, e) && Next(c, w, e, w')
    ensures WorldInv(w')
  {
    forall j: nat | j < |w'.attempts| ensures AttemptOk(w', j) {
      assert AttemptOk(w, j);
      D.MoveKeeps(w.attempts[j].call, D.Pass(e.until));
    }
  }

  /** Actions of the lease leave the submit times alone, and workers that have not started. */
  lemma LeaseFrame(c: L.LeaseConfig, w: World, a: L.Action, s': L.System)
    requires w.s.m.Valid() && s'.m.Valid() && Enabled(c, w, LeaseAction(a)) && L.Next(c, w.s, a, s')
    ensures s'.now == w.s.now && s'.workers.Keys == w.s.workers.Keys && |s'.m.heap| == |w.s.m.heap|
    ensures forall ref :: ref in w.s.workers ==>
      var k, k' := w.s.workers[ref], s'.workers[ref];
      k'.submitted == k.submitted && k'.started == k.started && (!k.started ==> k' == k)
  {
    match a
    case ManagerStep(step) => Limits.OwnSameNames(w.s, step);
    case DeliverPing(p, node) => Limits.BeatSameNames(w.s.m, p.id, p.finished, node, w.s.now);
    case _ =>
  }

  lemma LeaseKeeps(c: L.LeaseConfig, w: World, e: Event, w': World)
    requires WorldInv(w) && e.LeaseAction? && Enabled(c, w, e) && Next(c, w, e, w') && w'.s.m.Valid()
    ensures WorldInv(w')
  {
    LeaseFrame(c, w, e.action, w'.s);
    forall j: nat | j < |w'.attempts| ensures AttemptOk(w', j) { assert AttemptOk(w, j); }
  }

  lemma NextKeeps(c: L.LeaseConfig, w: World, e: Event, w': World)
    requires WorldInv(w) && Enabled(c, w, e) && Next(c, w, e, w') && w'.s.m.Valid()
    ensures WorldInv(w')
  {
    match e
    case BeginCall(_) => BeginKeeps(c, w, e, w');
    case CallMove(_, _) => MoveKeeps(c, w, e, w');
    case StartTimer(_, _) => TimerKeeps(c, w, e, w');
    case StartTask(_, _) => TaskKeeps(c, w, e, w');
    case Pass(_) => PassKeeps(c, w, e, w');
    case LeaseAction(_) => LeaseKeeps(c, w, e, w');
  }

  // ---------------------------------------------------------------- projection to the lease

  /** The action of the lease an event amounts to, if any. */
  function Shadow(w: World, e: Event, w': World): Option<L.Action> {
    match e
    case BeginCall(_) => None
    case CallMove(j, _) =>
      if w'.s == w.s || j >= |w'.attempts| then None
      else Some(L.ManagerStep(AbortStep(IdOf(w'.attempts[j].call))))
    case StartTimer(j, executor) =>
      if j >= |w.attempts| then None
      else Some(L.Submit(IdOf(w.attempts[j].call), executor, SubmitTime(w.attempts[j].call)))
    case StartTask(j, _) =>
      if j >= |w.attempts| || w.attempts[j].ref.None? then None else Some(L.StartWorker(w.attempts[j].ref.value))
    case Pass(until) => Some(L.Pass(until))
    case LeaseAction(a) => Some(a)
  }

  /** Every event is an action of the lease or nothing to it. */
  lemma Projects(c: L.LeaseConfig, w: World, e: Event, w': World)
    requires WorldInv(w) && Enabled(c, w, e) && Next(c, w, e, w')
    ensures var a := Shadow(w, e, w'); if a.Some? then L.Next(c, w.s, a.value, w'.s) else w'.s == w.s
  {
    match e
    case StartTimer(j, _) =>
      assert AttemptOk(w, j);
      TimerCarries(w.attempts[j].call);
    case StartTask(_, _) => TaskKeeps(c, w, e, w');
    case _ =>
  }

  // ---------------------------------------------------------------- every run

  datatype Run = Begin(first: World) | Later(before: Run, event: Event, world: World)

  function Last(run: Run): World {
    if run.Begin? then run.first else run.world
  }

  ghost predicate IsRun(c: L.LeaseConfig, run: Run)
    ensures IsRun(c, run) ==> Last(run).s.m.Valid()
  {
    match run
    case Begin(first) => L.Init(c, first.s) && first.attempts == []
    case Later(before, e, w') =>
      IsRun(c, before) && Enabled(c, Last(before), e) && Next(c, Last(before), e, w') && w'.s.m.Valid()
  }

  ghost predicate NeverHarmed(c: L.LeaseConfig, run: Run) {
    run.Later? ==>
      NeverHarmed(c, run.before)
      && (run.event.LeaseAction? ==> L.Harmless(c, Last(run.before).s, run.event.action))
  }

  lemma {:induction false} RunKeeps(c: L.LeaseConfig, run: Run)
    requires IsRun(c, run)
    ensures WorldInv(Last(run))
    decreases run
  {
    if run.Later? {
      RunKeeps(c, run.before);
      NextKeeps(c, Last(run.before), run.event, run.world);
    }
  }

  /** Every run of dispatch and lease together is, seen from the lease, one of its runs. */
  lemma {:induction false} RunProjects(c: L.LeaseConfig, run: Run) returns (lease: L.Run)
    requires IsRun(c, run) && NeverHarmed(c, run)
    ensures L.IsRun(c, lease) && L.NeverHarmed(c, lease) && L.Last(lease) == Last(run).s
    decreases run
  {
    match run
    case Begin(first) => lease := L.Begin(first.s);
    case Later(before, e, w') =>
      lease := RunProjects(c, before);
      RunKeeps(c, before);
      Projects(c, Last(before), e, w');
      var a := Shadow(Last(before), e, w');
      if a.Some? { lease := L.Later(lease, a.value, w'.s); }
  }

  /** No zombie workers, with the submit times as two-phase dispatch delivers them. */
  lemma {:induction false} NoZombie(c: L.LeaseConfig, run: Run, ref: nat)
    requires L.Sensible(c) && L.Safe(c) && IsRun(c, run) && NeverHarmed(c, run)
    ensures !L.Zombie(Last(run).s, ref)
  {
    var lease := RunProjects(c, run);
    L.NoZombie(c, lease, ref);
  }

  /** A worker whose dispatch was aborted never starts, in any run, with whatever pings. */
  lemma {:induction false} AbortedNeverStarts(c: L.LeaseConfig, run: Run, j: nat)
    requires IsRun(c, run) && j < |Last(run).attempts|
    requires Last(run).attempts[j].call.aborted && Last(run).attempts[j].ref.Some?
    ensures Last(run).attempts[j].ref.value in Last(run).s.workers
    ensures !Last(run).s.workers[Last(run).attempts[j].ref.value].started
  {
    RunKeeps(c, run);
    assert AttemptOk(Last(run), j);
  }

  // ---------------------------------------------------------------- one incarnation at a time

  /** The incarnation is that of the attempt `j`, whose own call was aborted. */
  predicate OwnAbort(w: World, j: nat, ref: nat) {
    j < |w.attempts| && w.attempts[j].ref == Some(ref) && w.attempts[j].call.aborted
  }

  /** An abort that is delivered reaches the incarnation it was meant for, or none. */
  ghost predicate ReachesOwn(w: World, e: Event) {
    e.LeaseAction? && Limits.Drops(w.s, e.action) ==> exists j: nat :: OwnAbort(w, j, Limits.Dropped(w.s))
  }

  ghost predicate AbortsReach(run: Run) {
    run.Later? ==> AbortsReach(run.before) && ReachesOwn(Last(run.before), run.event)
  }

  /** Whoever was dropped was dropped by its own call. */
  ghost predicate DroppedOwn(w: World) {
    forall ref: nat :: ref in w.s.m.aborted ==> exists j: nat :: OwnAbort(w, j, ref)
  }

  lemma OwnAbortStays(c: L.LeaseConfig, w: World, e: Event, w': World, j: nat, ref: nat)
    requires WorldInv(w) && Enabled(c, w, e) && Next(c, w, e, w') && OwnAbort(w, j, ref)
    ensures OwnAbort(w', j, ref)
  {
    assert AttemptOk(w, j);
  }

  lemma DroppedBy(c: L.LeaseConfig, w: World, e: Event, w': World)
    requires WorldInv(w) && Enabled(c, w, e) && Next(c, w, e, w')
    ensures w'.s.m.aborted == w.s.m.aborted +
      (if e.LeaseAction? && Limits.Drops(w.s, e.action) then {Limits.Dropped(w.s)} else {})
  {
    Projects(c, w, e, w');
    var a := Shadow(w, e, w');
    if a.Some? { Limits.AbortedBy(w.s, a.value, w'.s, c); }
  }

  lemma DroppedOwnKept(c: L.LeaseConfig, w: World, e: Event, w': World)
    requires WorldInv(w) && DroppedOwn(w) && Enabled(c, w, e) && Next(c, w, e, w') && ReachesOwn(w, e)
    ensures DroppedOwn(w')
  {
    DroppedBy(c, w, e, w');
    forall ref: nat | ref in w'.s.m.aborted ensures exists j: nat :: OwnAbort(w', j, ref) {
      var j: nat :| OwnAbort(w, j, ref);
      OwnAbortStays(c, w, e, w', j, ref);
    }
  }

  lemma {:induction false} RunDropsOwn(c: L.LeaseConfig, run: Run)
    requires IsRun(c, run) && AbortsReach(run)
    ensures DroppedOwn(Last(run))
    decreases run
  {
    if run.Later? {
      RunDropsOwn(c, run.before);
      RunKeeps(c, run.before);
      DroppedOwnKept(c, Last(run.before), run.event, run.world);
    }
  }

  /**
   In every run in which aborts reach their own incarnation, no two incarnations of one ID can tick
   together.
   */
  lemma {:induction false} OneAtATime(c: L.LeaseConfig, run: Run, r: nat, r': nat)
    requires L.Sensible(c) && L.Safe(c) && IsRun(c, run) && NeverHarmed(c, run) && AbortsReach(run)
    ensures !L.Twins(Last(run).s, r, r')
  {
    if L.Twins(Last(run).s, r, r') {
      var lease := RunProjects(c, run);
      L.OneIncarnation(c, lease, r, r');
      RunDropsOwn(c, run);
      var gone := if r in Last(run).s.m.aborted then r else r';
      var j: nat :| OwnAbort(Last(run), j, gone);
      AbortedNeverStarts(c, run, j);
    }
  }
}
