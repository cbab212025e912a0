/**
 The lease between a master and its workers, within one epoch of the master: the WorkerManager on one
 side, the heartbeat, watchdog and polling loops of every worker on the other, and between them a
 network that may lose, delay, reorder and repeat messages.
 */
module Lease {
  import opened Timeouts
  import opened ManagerModel
  import opened ManagerInvariant

  /** `startLag` bounds the time from the submission of a worker to its start. */
  datatype LeaseConfig = LeaseConfig(timeouts: TimeoutConfig, startLag: Time)

  /** What Adjust guarantees, and durations that make sense. */
  predicate Sensible(c: LeaseConfig) {
    0 < c.timeouts.heartbeat && 0 <= c.timeouts.graceful && 0 <= c.startLag
    && 2 * c.timeouts.heartbeat < c.timeouts.workerTimeout
  }

  /** Every adjusted configuration with durations that make sense is one the lease speaks of. */
  lemma AdjustedIsSensible(timeouts: TimeoutConfig, startLag: Time)
    ensures Sensible(LeaseConfig(Adjust(timeouts), startLag))
       <==> 0 < timeouts.heartbeat && 0 <= timeouts.graceful && 0 <= startLag
  {
    AdjustRaises(timeouts);
  }

  datatype ExitState = WorkerNormal | WorkerHalfExit | WorkerExited

  /**
   A worker process. `errored` says that its error center holds an error; `lastWatch` is the last
   round of the watchdog, or the start. `best` is the latest acknowledged send time so far and
   records history only, since a reordered pong sets `lastAck` back.
   */
  datatype Worker = Worker(
    id: WorkerID, submitted: Time, started: bool, lastWatch: Time, lastAck: Time, best: Time,
    errored: bool, exit: ExitState, masterSideClosed: bool)

  /** `ref` is the incarnation that sent the ping; the message itself carries only the ID. */
  datatype Ping = Ping(id: WorkerID, ref: nat, sendTime: Time, finished: bool)

  datatype Pong = Pong(id: WorkerID, sendTime: Time, finished: bool)

  datatype System = System(m: Manager, now: Time, workers: map<nat, Worker>, pings: set<Ping>, pongs: set<Pong>)

  /** Whether the next poll would run Impl.Tick. */
  predicate CanTick(w: Worker) { w.started && !w.errored }

  datatype Action =
    | Pass(until: Time)
    | Submit(id: WorkerID, executor: ExecutorID, submitted: Time)
    | StartWorker(ref: nat)
    | WatchDog(ref: nat)
    | Fail(ref: nat)
    | Poll(ref: nat)
    | SendPing(ref: nat)
    | DeliverPing(ping: Ping, node: ExecutorID)
    | DeliverPong(pong: Pong, ref: nat)
    | ManagerStep(step: Step)

  ghost predicate Init(c: LeaseConfig, s: System) {
    exists epoch: int ::
      s.m == NewManager(epoch, c.timeouts, true) && s.workers == map[] && s.pings == {} && s.pongs == {}
  }

  /** CheckMasterTimeout */
  predicate MasterTimely(t: TimeoutConfig, sinceLastAcked: Time) {
    sinceLastAcked <= 2 * t.heartbeat || sinceLastAcked < t.workerTimeout
  }

  function Watched(t: TimeoutConfig, w: Worker, now: Time): Worker {
    if MasterTimely(t, now - w.lastAck) then w.(lastWatch := now)
    else w.(lastWatch := now, errored := true, exit := WorkerExited)
  }

  /** What a poll does to the exit state. */
  function Polled(w: Worker): Worker {
    if !w.errored then w
    else if w.exit == WorkerNormal then w.(exit := WorkerHalfExit)
    else if w.exit == WorkerHalfExit && w.masterSideClosed then w.(exit := WorkerExited)
    else w
  }

  function Acked(w: Worker, q: Pong): Worker {
    w.(lastAck := q.sendTime, best := if w.best < q.sendTime then q.sendTime else w.best,
       masterSideClosed := w.masterSideClosed || q.finished)
  }

  /** Steps the manager makes on its own account, at the present time. */
  predicate OwnStep(s: System, step: Step) {
    match step
    case TickStep(_) => true
    case CheckStep(_, now) => now == s.now
    case AbortStep(_) => true
    case RemoveStep(_) => true
    case StatusStep(_, _, _) => true
    case _ => false
  }

  /** The effect of an action; a panic of the manager ends the run. */
  ghost predicate Next(c: LeaseConfig, s: System, a: Action, s': System)
    requires s.m.Valid()
  {
    match a
    case Pass(until) =>
      s.now <= until && s' == s.(now := until)
      && forall ref :: ref in s.workers && CanTick(s.workers[ref]) ==>
           until <= s.workers[ref].lastWatch + c.timeouts.heartbeat
    case Submit(id, executor, submitted) =>
      && submitted <= s.now && BeforeStarting(s.m, id, executor, s.now).Went?
      && s' == s.(m := BeforeStarting(s.m, id, executor, s.now).m,
                  workers := s.workers[|s.m.heap| :=
                    Worker(id, submitted, false, submitted, submitted, submitted, false, WorkerNormal, false)])
    case StartWorker(ref) =>
      && ref in s.workers && !s.workers[ref].started && s.now <= s.workers[ref].submitted + c.startLag
      && s' == s.(workers := s.workers[ref := s.workers[ref].(started := true, lastWatch := s.now)])
    case WatchDog(ref) =>
      && ref in s.workers && CanTick(s.workers[ref])
      && s' == s.(workers := s.workers[ref := Watched(c.timeouts, s.workers[ref], s.now)])
    case Fail(ref) =>
      && ref in s.workers && s.workers[ref].started
      && s' == s.(workers := s.workers[ref := s.workers[ref].(errored := true)])
    case Poll(ref) =>
      && ref in s.workers && s.workers[ref].started
      && s' == s.(workers := s.workers[ref := Polled(s.workers[ref])])
    case SendPing(ref) =>
      && ref in s.workers && s.workers[ref].started
      && s' == s.(pings := s.pings + {Ping(s.workers[ref].id, ref, s.now, s.workers[ref].exit == WorkerHalfExit)})
    case DeliverPing(p, node) =>
      && p in s.pings && Heartbeat(s.m, p.id, s.m.epoch, p.finished, node, s.now).Went?
      && s' == s.(m := Heartbeat(s.m, p.id, s.m.epoch, p.finished, node, s.now).m,
                  pongs := s.pongs + {Pong(p.id, p.sendTime, p.finished)})
    case DeliverPong(q, ref) =>
      && q in s.pongs && ref in s.workers && s.workers[ref].started && s.workers[ref].id == q.id
      && s' == s.(workers := s.workers[ref := Acked(s.workers[ref], q)])
    case ManagerStep(step) =>
      OwnStep(s, step) && Apply(s.m, step).Went? && s' == s.(m := Apply(s.m, step).m)
  }

  /**
   A finished ping does no harm if it comes from the current incarnation, or if that one has stopped
   as well.
   */
  predicate Harmless(c: LeaseConfig, s: System, a: Action) {
    a.DeliverPing? && a.ping.finished && a.ping.id in s.m.entries ==>
      var ref := s.m.entries[a.ping.id];
      ref == a.ping.ref || (ref in s.workers && Stopped(c, s, s.workers[ref]))
  }

  // ---------------------------------------------------------------- the invariant

  predicate Down(e: Entry) { e.state == Offline || e.state == Tombstone }

  /** The worker runs no Impl.Tick now, and will not start to. */
  predicate Stopped(c: LeaseConfig, s: System, w: Worker) {
    if w.started then w.errored else w.submitted + c.startLag < s.now
  }

  predicate WatchOk(c: LeaseConfig, s: System, w: Worker) {
    && w.submitted <= w.best <= s.now && w.lastAck <= w.best
    && (w.exit == WorkerHalfExit ==> w.errored) && (w.errored ==> w.started)
    && (CanTick(w) ==>
          && w.lastWatch <= s.now <= w.lastWatch + c.timeouts.heartbeat
          && (w.lastWatch < w.best + c.timeouts.workerTimeout || w.lastWatch <= w.submitted + c.startLag))
  }

  ghost predicate WorkerOk(c: LeaseConfig, s: System, ref: nat)
    requires s.m.Valid() && ref in s.workers && ref < |s.m.heap|
  {
    var w, e := s.workers[ref], s.m.heap[ref];
    && w.id == e.id && WatchOk(c, s, w)
    && (IsMapped(s.m, ref) ==> NextExpireTime(c.timeouts, w.best) <= e.expireAt)
    && (e.finished ==> Stopped(c, s, w))
    && (Down(e) ==> Stopped(c, s, w))
  }

  ghost predicate PingOk(s: System, p: Ping) {
    && p.sendTime <= s.now && p.ref in s.workers && s.workers[p.ref].id == p.id
    && (p.finished ==> s.workers[p.ref].started && s.workers[p.ref].errored)
  }

  /** An entry outlives every acknowledgement sent to its ID by the time-out and the grace. */
  ghost predicate PongOk(c: LeaseConfig, s: System, q: Pong)
    requires s.m.Valid()
  {
    && q.sendTime <= s.now
    && (q.id in s.m.entries ==> NextExpireTime(c.timeouts, q.sendTime) <= s.m.heap[s.m.entries[q.id]].expireAt)
  }

  ghost predicate LeaseInv(c: LeaseConfig, s: System) {
    && Inv(s.m) && s.m.phase == Ready && s.m.recovered == 0 && s.m.timeouts == c.timeouts
    && (forall ref: nat :: ref in s.workers <==> ref < |s.m.heap|)
    && (forall ref: nat :: ref in s.workers ==> WorkerOk(c, s, ref))
    && (forall p :: p in s.pings ==> PingOk(s, p))
    && (forall q :: q in s.pongs ==> PongOk(c, s, q))
  }

  /** The heartbeat interval fits the grace, and a late start leaves a round for the watchdog. */
  predicate Safe(c: LeaseConfig) {
    var t := c.timeouts;
    t.heartbeat <= t.graceful + 1 && c.startLag + t.heartbeat <= t.workerTimeout + t.graceful
  }

  // ---------------------------------------------------------------- every action keeps it

  lemma InitKeeps(c: LeaseConfig, s: System)
    requires Init(c, s)
    ensures LeaseInv(c, s)
  {
    var epoch: int :| s.m == NewManager(epoch, c.timeouts, true);
    InvInit(epoch, c.timeouts, true);
  }

  /** Actions of one worker that leave the manager and the network alone. */
  lemma WorkerKeeps(c: LeaseConfig, s: System, ref: nat, w: Worker)
    requires LeaseInv(c, s) && ref in s.workers
    requires WorkerOk(c, s.(workers := s.workers[ref := w]), ref)
    requires w.id == s.workers[ref].id
    requires s.workers[ref].started && s.workers[ref].errored ==> w.started && w.errored
    ensures LeaseInv(c, s.(workers := s.workers[ref := w]))
  {
    var s' := s.(workers := s.workers[ref := w]);
    forall r: nat | r in s'.workers ensures WorkerOk(c, s', r) {
      if r != ref { assert WorkerOk(c, s, r); }
    }
    forall p | p in s'.pings ensures PingOk(s', p) { assert PingOk(s, p); }
    forall q | q in s'.pongs ensures PongOk(c, s', q) { assert PongOk(c, s, q); }
  }

  lemma PassKeeps(c: LeaseConfig, s: System, until: Time, s': System)
    requires LeaseInv(c, s) && Next(c, s, Pass(until), s')
    ensures LeaseInv(c, s')
  {
    forall r: nat | r in s'.workers ensures WorkerOk(c, s', r) { assert WorkerOk(c, s, r); }
    forall p | p in s'.pings ensures PingOk(s', p) { assert PingOk(s, p); }
    forall q | q in s'.pongs ensures PongOk(c, s', q) { assert PongOk(c, s, q); }
  }

  lemma SubmitKeeps(c: LeaseConfig, s: System, a: Action, s': System)
    requires LeaseInv(c, s) && a.Submit? && Next(c, s, a, s')
    ensures LeaseInv(c, s')
  {
    StartKeeps(s.m, a.id, a.executor, s.now);
    forall r: nat | r in s'.workers ensures WorkerOk(c, s', r) {
      if r < |s.m.heap| { assert WorkerOk(c, s, r); }
    }
    forall p | p in s'.pings ensures PingOk(s', p) { assert PingOk(s, p); }
    forall q | q in s'.pongs ensures PongOk(c, s', q) { assert PongOk(c, s, q); }
  }

  lemma PongKeeps(c: LeaseConfig, s: System, a: Action, s': System)
    requires LeaseInv(c, s) && a.DeliverPong? && Next(c, s, a, s')
    ensures LeaseInv(c, s')
  {
    assert WorkerOk(c, s, a.ref);
    assert PongOk(c, s, a.pong);
    WorkerKeeps(c, s, a.ref, Acked(s.workers[a.ref], a.pong));
  }

  lemma OwnActionKeeps(c: LeaseConfig, s: System, a: Action, s': System)
    requires LeaseInv(c, s) && Sensible(c) && Next(c, s, a, s')
    requires a.StartWorker? || a.WatchDog? || a.Fail? || a.Poll?
    ensures LeaseInv(c, s')
  {
    assert WorkerOk(c, s, a.ref);
    WorkerKeeps(c, s, a.ref, s'.workers[a.ref]);
  }

  lemma SendKeeps(c: LeaseConfig, s: System, a: Action, s': System)
    requires LeaseInv(c, s) && a.SendPing? && Next(c, s, a, s')
    ensures LeaseInv(c, s')
  {
    assert WorkerOk(c, s, a.ref);
    forall r: nat | r in s'.workers ensures WorkerOk(c, s', r) { assert WorkerOk(c, s, r); }
    forall p | p in s'.pings ensures PingOk(s', p) { if p in s.pings { assert PingOk(s, p); } }
    forall q | q in s'.pongs ensures PongOk(c, s', q) { assert PongOk(c, s, q); }
  }

  /** What a heartbeat of the present epoch leaves as it is. */
  ghost predicate BeatFrame(m: Manager, m': Manager) {
    && Inv(m') && m'.phase == Ready && m'.recovered == m.recovered && m'.timeouts == m.timeouts
    && m'.entries == m.entries && |m'.heap| == |m.heap|
  }

  lemma HeartbeatFrame(m: Manager, p: Ping, node: ExecutorID, now: Time)
    requires Inv(m) && m.phase == Ready
    ensures var r := Heartbeat(m, p.id, m.epoch, p.finished, node, now); r.Went? && BeatFrame(m, r.m)
  {
    HeartbeatKeeps(m, p.id, m.epoch, p.finished, node, now);
  }

  /** A heartbeat moves the expiry of the current entry to the time-out and grace from now. */
  lemma HeartbeatEffect(m: Manager, p: Ping, node: ExecutorID, now: Time, ref: nat)
    requires m.Valid() && m.phase == Ready && ref < |m.heap|
    ensures var r := Heartbeat(m, p.id, m.epoch, p.finished, node, now);
      && r.Went? && |r.m.heap| == |m.heap|
      && var e, e' := m.heap[ref], r.m.heap[ref];
         && e'.id == e.id && (Down(e') <==> Down(e))
         && if p.id in m.entries && m.entries[p.id] == ref
            then e'.expireAt == NextExpireTime(m.timeouts, now) && e'.finished == (e.finished || p.finished)
            else e' == e
  {
    if p.id in m.entries {
      var current := m.entries[p.id];
      if current == ref { BeatMapped(m, p, node, now); } else { BeatOther(m, p, node, now, ref); }
    }
  }

  /** The current entry is renewed, and brought online if it is Created. */
  lemma BeatMapped(m: Manager, p: Ping, node: ExecutorID, now: Time)
    requires m.Valid() && m.phase == Ready && p.id in m.entries
    ensures var r, ref := Heartbeat(m, p.id, m.epoch, p.finished, node, now), m.entries[p.id];
      && r.Went? && |r.m.heap| == |m.heap|
      && var e, e' := Refreshed(m, m.heap[ref], p.finished, now), r.m.heap[ref];
         e' == if e.state == Created then e.(state := Normal, executor := node) else e
  {}

  lemma BeatOther(m: Manager, p: Ping, node: ExecutorID, now: Time, ref: nat)
    requires m.Valid() && m.phase == Ready && p.id in m.entries && ref < |m.heap| && m.entries[p.id] != ref
    ensures var r := Heartbeat(m, p.id, m.epoch, p.finished, node, now);
      r.Went? && |r.m.heap| == |m.heap| && r.m.heap[ref] == m.heap[ref]
  {}

  lemma PingKeeps(c: LeaseConfig, s: System, a: Action, s': System)
    requires LeaseInv(c, s) && a.DeliverPing? && Next(c, s, a, s') && Harmless(c, s, a)
    ensures LeaseInv(c, s')
  {
    var p := a.ping;
    assert PingOk(s, p);
    HeartbeatFrame(s.m, p, a.node, s.now);
    forall r: nat | r in s'.workers ensures WorkerOk(c, s', r) {
      assert WorkerOk(c, s, r);
      HeartbeatEffect(s.m, p, a.node, s.now, r);
    }
    forall p' | p' in s'.pings ensures PingOk(s', p') { assert PingOk(s, p'); }
    forall q | q in s'.pongs ensures PongOk(c, s', q) {
      if q.id in s.m.entries { HeartbeatEffect(s.m, p, a.node, s.now, s.m.entries[q.id]); }
      if q in s.pongs { assert PongOk(c, s, q); }
    }
  }

  /** Nothing but the check takes an entry down, and nothing but a heartbeat changes its lease. */
  ghost predicate Calm(m: Manager, m': Manager)
    requires m.Valid()
  {
    && m'.Valid() && m'.phase == m.phase && m'.recovered == m.recovered && m'.timeouts == m.timeouts
    && |m'.heap| == |m.heap|
    && (forall id :: id in m'.entries ==> id in m.entries && m'.entries[id] == m.entries[id])
    && (forall ref: nat :: ref < |m.heap| ==> SameLease(m.heap[ref], m'.heap[ref]))
  }

  predicate SameLease(e: Entry, e': Entry) {
    e'.id == e.id && e'.expireAt == e.expireAt && e'.finished == e.finished && (Down(e') <==> Down(e))
  }

  lemma HookIsCalm(m: Manager) returns (hooked: Outcome)
    requires Inv(m) && m.next < |m.events|
    ensures hooked == RunHook(m.(next := m.next + 1), m.events[m.next])
    ensures hooked.Went? ==> Calm(m, hooked.m)
  {
    assert EventOk(m, m.next);
    hooked := RunHook(m.(next := m.next + 1), m.events[m.next]);
  }

  lemma CleanIsCalm(m: Manager, hooked: Outcome, clean: bool, ev: Event)
    requires m.Valid() && (hooked.Went? ==> Calm(m, hooked.m))
    ensures var r := AfterCallback(hooked, clean, ev); r.Went? ==> Calm(m, r.m)
  {}

  lemma TickIsCalm(m: Manager, clean: bool)
    requires Inv(m) && TickOne(m, clean).Went?
    ensures Calm(m, TickOne(m, clean).m)
  {
    if m.next < |m.events| {
      var hooked := HookIsCalm(m);
      CleanIsCalm(m, hooked, clean, m.events[m.next]);
      TickIs(m, clean, hooked);
    }
  }

  lemma CalmStep(m: Manager, s: Step)
    requires Inv(m) && Apply(m, s).Went?
    requires s.TickStep? || s.AbortStep? || s.RemoveStep? || s.StatusStep?
    ensures Calm(m, Apply(m, s).m)
  {
    if s.TickStep? { TickIsCalm(m, s.clean); }
  }

  lemma CalmKeeps(c: LeaseConfig, s: System, m': Manager)
    requires LeaseInv(c, s) && Inv(m') && Calm(s.m, m')
    ensures LeaseInv(c, s.(m := m'))
  {
    var s' := s.(m := m');
    forall r: nat | r in s'.workers ensures WorkerOk(c, s', r) {
      assert WorkerOk(c, s, r);
      assert SameLease(s.m.heap[r], m'.heap[r]);
    }
    forall p | p in s'.pings ensures PingOk(s', p) { assert PingOk(s, p); }
    forall q | q in s'.pongs ensures PongOk(c, s', q) {
      assert PongOk(c, s, q);
      if q.id in m'.entries { assert SameLease(s.m.heap[m'.entries[q.id]], m'.heap[m'.entries[q.id]]); }
    }
  }

  /** The heart of the lease: whoever is taken down has stopped before. */
  lemma ExpiredHasStopped(c: LeaseConfig, s: System, ref: nat)
    requires Sensible(c) && Safe(c) && LeaseInv(c, s) && ref in s.workers
    requires IsMapped(s.m, ref) && ShouldGoOffline(s.m.heap[ref], s.now)
    ensures Stopped(c, s, s.workers[ref])
  {
    assert WorkerOk(c, s, ref);
  }

  lemma CheckEffect(m: Manager, id: WorkerID, now: Time)
    requires Inv(m) && m.phase == Ready
    ensures var r := CheckEntry(m, id, now);
      && r.Went? && Inv(r.m) && r.m.phase == Ready && r.m.recovered == m.recovered && r.m.timeouts == m.timeouts
      && r.m.entries == m.entries && |r.m.heap| == |m.heap|
      && (forall ref: nat :: ref < |m.heap| ==>
            var e, e' := m.heap[ref], r.m.heap[ref];
            && e'.id == e.id && e'.expireAt == e.expireAt && e'.finished == e.finished
            && (Down(e') ==> Down(e) || (IsMapped(m, ref) && ShouldGoOffline(e, now))))
  {
    CheckKeeps(m, id, now);
  }

  lemma CheckActionKeeps(c: LeaseConfig, s: System, id: WorkerID)
    requires Sensible(c) && Safe(c) && LeaseInv(c, s)
    ensures CheckEntry(s.m, id, s.now).Went? && LeaseInv(c, s.(m := CheckEntry(s.m, id, s.now).m))
  {
    CheckEffect(s.m, id, s.now);
    var s' := s.(m := CheckEntry(s.m, id, s.now).m);
    forall r: nat | r in s'.workers ensures WorkerOk(c, s', r) {
      assert WorkerOk(c, s, r);
      if IsMapped(s.m, r) && ShouldGoOffline(s.m.heap[r], s.now) { ExpiredHasStopped(c, s, r); }
    }
    forall p | p in s'.pings ensures PingOk(s', p) { assert PingOk(s, p); }
    forall q | q in s'.pongs ensures PongOk(c, s', q) { assert PongOk(c, s, q); }
  }

  lemma {:induction false} NextKeeps(c: LeaseConfig, s: System, a: Action, s': System)
    requires Sensible(c) && Safe(c) && LeaseInv(c, s) && Next(c, s, a, s') && Harmless(c, s, a)
    ensures LeaseInv(c, s')
  {
    match a
    case Pass(until) => PassKeeps(c, s, until, s');
    case Submit(_, _, _) => SubmitKeeps(c, s, a, s');
    case SendPing(_) => SendKeeps(c, s, a, s');
    case DeliverPing(_, _) => PingKeeps(c, s, a, s');
    case DeliverPong(_, _) => PongKeeps(c, s, a, s');
    case ManagerStep(step) =>
      if step.CheckStep? {
        CheckActionKeeps(c, s, step.id);
      } else {
        StepKeeps(s.m, step);
        CalmStep(s.m, step);
        CalmKeeps(c, s, Apply(s.m, step).m);
      }
    case _ => OwnActionKeeps(c, s, a, s');
  }

  // ---------------------------------------------------------------- every run

  /** A run of the system, its latest action outermost. */
  datatype Run = Begin(first: System) | Later(before: Run, action: Action, system: System)

  function Last(run: Run): System {
    if run.Begin? then run.first else run.system
  }

  /** A run of the code. */
  ghost predicate IsRun(c: LeaseConfig, run: Run)
    ensures IsRun(c, run) ==> Last(run).m.Valid()
  {
    match run
    case Begin(first) => Init(c, first)
    case Later(before, a, s') => IsRun(c, before) && s'.m.Valid() && Next(c, Last(before), a, s')
  }

  ghost predicate NeverHarmed(c: LeaseConfig, run: Run) {
    run.Later? ==> NeverHarmed(c, run.before) && Harmless(c, Last(run.before), run.action)
  }

  /** A worker that the master has taken down but that could still run Impl.Tick. */
  predicate Zombie(s: System, ref: nat) {
    ref in s.workers && ref < |s.m.heap| && Down(s.m.heap[ref]) && CanTick(s.workers[ref])
  }

  lemma {:induction false} RunKeepsLease(c: LeaseConfig, run: Run)
    requires Sensible(c) && Safe(c) && IsRun(c, run) && NeverHarmed(c, run)
    ensures LeaseInv(c, Last(run))
    decreases run
  {
    match run
    case Begin(first) => InitKeeps(c, first);
    case Later(before, a, s') =>
      RunKeepsLease(c, before);
      NextKeeps(c, Last(before), a, s');
  }

  /** Once the master has taken a worker down, that worker runs no further Impl.Tick. */
  lemma {:induction false} NoZombie(c: LeaseConfig, run: Run, ref: nat)
    requires Sensible(c) && Safe(c) && IsRun(c, run) && NeverHarmed(c, run)
    ensures !Zombie(Last(run), ref)
  {
    RunKeepsLease(c, run);
    if ref in Last(run).workers { assert WorkerOk(c, Last(run), ref); }
  }

  /** Two incarnations of one ID that could both run Impl.Tick. */
  predicate Twins(s: System, r: nat, r': nat) {
    && r != r' && r in s.workers && r' in s.workers && s.workers[r].id == s.workers[r'].id
    && CanTick(s.workers[r]) && CanTick(s.workers[r'])
  }

  lemma TwinAborted(c: LeaseConfig, s: System, r: nat, r': nat)
    requires LeaseInv(c, s) && Twins(s, r, r')
    ensures r in s.m.aborted || r' in s.m.aborted
  {
    assert WorkerOk(c, s, r) && WorkerOk(c, s, r');
    assert RefOk(s.m, r) && RefOk(s.m, r');
  }

  /** What the lease is for: two incarnations of one ID never tick together, unless one was aborted. */
  lemma {:induction false} OneIncarnation(c: LeaseConfig, run: Run, r: nat, r': nat)
    requires Sensible(c) && Safe(c) && IsRun(c, run) && NeverHarmed(c, run) && Twins(Last(run), r, r')
    ensures r in Last(run).m.aborted || r' in Last(run).m.aborted
  {
    RunKeepsLease(c, run);
    TwinAborted(c, Last(run), r, r');
  }
}
