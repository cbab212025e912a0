/** Where the lease ends: runs that leave a zombie worker when its conditions are not met. */
module LeaseLimits {
  import opened Timeouts
  import opened ManagerModel
  import opened ManagerInvariant
  import opened Lease

  /** A run that leads to `s` without a harmful ping. */
  ghost predicate LeadsTo(c: LeaseConfig, run: Run, s: System) {
    IsRun(c, run) && NeverHarmed(c, run) && Last(run) == s
  }

  lemma OneMore(c: LeaseConfig, run: Run, s: System, a: Action, s': System) returns (run': Run)
    requires LeadsTo(c, run, s) && s'.m.Valid() && Next(c, s, a, s') && Harmless(c, s, a)
    ensures LeadsTo(c, run', s')
  {
    run' := Later(run, a, s');
  }

  function OnlyEntry(c: LeaseConfig, id: WorkerID, executor: ExecutorID): Manager {
    BeforeStarting(NewManager(0, c.timeouts, true), id, executor, 0).m
  }

  function NewWorker(id: WorkerID): Worker {
    Worker(id, 0, false, 0, 0, 0, false, WorkerNormal, false)
  }

  /** One worker, submitted at time 0, whose watchdog last ran just now. */
  function Watching(m: Manager, id: WorkerID, now: Time): System {
    System(m, now, map[0 := NewWorker(id).(started := true, lastWatch := now)], {}, {})
  }

  function Submitted(m: Manager, id: WorkerID, now: Time): System {
    System(m, now, map[0 := NewWorker(id)], {}, {})
  }

  lemma SubmitFirst(c: LeaseConfig, id: WorkerID, executor: ExecutorID) returns (run: Run)
    ensures LeadsTo(c, run, Submitted(OnlyEntry(c, id, executor), id, 0))
  {
    var m0 := NewManager(0, c.timeouts, true);
    var s0 := System(m0, 0, map[], {}, {});
    assert Init(c, s0) by { assert s0.m == NewManager(0, c.timeouts, true); }
    assert LeadsTo(c, Begin(s0), s0);
    run := OneMore(c, Begin(s0), s0, Submit(id, executor, 0), Submitted(OnlyEntry(c, id, executor), id, 0));
  }

  lemma StartAt(c: LeaseConfig, id: WorkerID, executor: ExecutorID, at: Time) returns (run: Run)
    requires 0 <= at <= c.startLag
    ensures LeadsTo(c, run, Watching(OnlyEntry(c, id, executor), id, at))
  {
    var m := OnlyEntry(c, id, executor);
    run := SubmitFirst(c, id, executor);
    run := OneMore(c, run, Submitted(m, id, 0), Pass(at), Submitted(m, id, at));
    run := OneMore(c, run, Submitted(m, id, at), StartWorker(0), Watching(m, id, at));
  }

  /** Without any pong, the watchdog is content until the worker time-out has passed. */
  lemma {:induction false} KeepWatching(c: LeaseConfig, m: Manager, id: WorkerID, run: Run, since: Time, until: Time)
    returns (run': Run)
    requires Sensible(c) && m.Valid() && LeadsTo(c, run, Watching(m, id, since))
    requires 0 <= since <= until < c.timeouts.workerTimeout
    ensures LeadsTo(c, run', Watching(m, id, until))
    decreases until - since
  {
    if since == until { return run; }
    var mid := if since + c.timeouts.heartbeat < until then since + c.timeouts.heartbeat else until;
    var s := Watching(m, id, since);
    run' := OneMore(c, run, s, Pass(mid), s.(now := mid));
    run' := OneMore(c, run', s.(now := mid), WatchDog(0), Watching(m, id, mid));
    run' := KeepWatching(c, m, id, run', mid, until);
  }

  /** Past its expiry the entry is taken down, whatever the worker does. */
  lemma TakeDown(c: LeaseConfig, id: WorkerID, executor: ExecutorID, run: Run, s: System, until: Time) returns (run': Run)
    requires s.m == OnlyEntry(c, id, executor) && s.workers.Keys == {0} && CanTick(s.workers[0])
    requires LeadsTo(c, run, s)
    requires s.now <= until <= s.workers[0].lastWatch + c.timeouts.heartbeat
    requires NextExpireTime(c.timeouts, 0) < until
    ensures IsRun(c, run') && NeverHarmed(c, run') && Zombie(Last(run'), 0)
  {
    var s1 := s.(now := until);
    run' := OneMore(c, run, s, Pass(until), s1);
    var s2 := s1.(m := CheckEntry(s.m, id, until).m);
    run' := OneMore(c, run', s1, ManagerStep(CheckStep(id, until)), s2);
  }

  /** A worker that starts late is taken down before its watchdog has looked once. */
  lemma {:induction false} LateStart(c: LeaseConfig, id: WorkerID, executor: ExecutorID) returns (run: Run)
    requires Sensible(c) && c.timeouts.workerTimeout + c.timeouts.graceful < c.startLag + c.timeouts.heartbeat
    ensures IsRun(c, run) && NeverHarmed(c, run) && Zombie(Last(run), 0)
  {
    var m := OnlyEntry(c, id, executor);
    run := StartAt(c, id, executor, c.startLag);
    var expired := NextExpireTime(c.timeouts, 0) + 1;
    run := TakeDown(c, id, executor, run, Watching(m, id, c.startLag),
                    if expired < c.startLag then c.startLag else expired);
  }

  /** With a heartbeat interval beyond the grace the watchdog looks just before the time-out. */
  lemma {:induction false} SlowWatchDog(c: LeaseConfig, id: WorkerID, executor: ExecutorID) returns (run: Run)
    requires Sensible(c) && c.timeouts.graceful + 1 < c.timeouts.heartbeat
    ensures IsRun(c, run) && NeverHarmed(c, run) && Zombie(Last(run), 0)
  {
    var m := OnlyEntry(c, id, executor);
    var last := c.timeouts.workerTimeout - 1;
    var start := StartAt(c, id, executor, 0);
    var watched := KeepWatching(c, m, id, start, 0, last);
    run := TakeDown(c, id, executor, watched, Watching(m, id, last), NextExpireTime(c.timeouts, 0) + 1);
  }

  ghost predicate ZombieFree(c: LeaseConfig) {
    forall run, ref: nat :: IsRun(c, run) && NeverHarmed(c, run) ==> !Zombie(Last(run), ref)
  }

  /** The exact condition on the time-outs under which no run has a zombie worker. */
  lemma {:induction false} ZombieFreeIffSafe(c: LeaseConfig)
    requires Sensible(c)
    ensures ZombieFree(c) <==> Safe(c)
  {
    if Safe(c) {
      forall run, ref: nat | IsRun(c, run) && NeverHarmed(c, run) ensures !Zombie(Last(run), ref) {
        NoZombie(c, run, ref);
      }
    } else if c.timeouts.graceful + 1 < c.timeouts.heartbeat {
      var run := SlowWatchDog(c, WorkerID(""), ExecutorID(""));
    } else {
      var run := LateStart(c, WorkerID(""), ExecutorID(""));
    }
  }

  /** The default time-outs are safe for every worker that starts within 17 seconds. */
  lemma DefaultsAreSafe(startLag: Time)
    requires 0 <= startLag
    ensures Sensible(LeaseConfig(DEFAULT_TIMEOUTS, startLag))
    ensures ZombieFree(LeaseConfig(DEFAULT_TIMEOUTS, startLag)) <==> startLag <= 17 * SECOND
  {
    ZombieFreeIffSafe(LeaseConfig(DEFAULT_TIMEOUTS, startLag));
  }

  // ---------------------------------------------------------------- stale pings

  /** No finished ping of an earlier incarnation reaches a later one of the same ID. */
  predicate NotStale(s: System, a: Action) {
    a.DeliverPing? && a.ping.finished && a.ping.id in s.m.entries ==> s.m.entries[a.ping.id] == a.ping.ref
  }

  /** Every incarnation has an ID of its own. */
  ghost predicate FreshIds(run: Run) {
    run.Later? ==>
      && FreshIds(run.before)
      && (run.action.Submit? ==>
            forall ref: nat :: ref < |Last(run.before).m.heap| ==> Last(run.before).m.heap[ref].id != run.action.id)
  }

  ghost predicate NeverStale(run: Run) {
    run.Later? ==> NeverStale(run.before) && NotStale(Last(run.before), run.action)
  }

  /** Workers, pings and entries agree on who is who, and no two incarnations share an ID. */
  ghost predicate Named(s: System) {
    && s.m.Valid()
    && (forall ref: nat :: ref in s.workers <==> ref < |s.m.heap|)
    && (forall ref: nat :: ref in s.workers ==> s.workers[ref].id == s.m.heap[ref].id)
    && (forall p :: p in s.pings ==> p.ref in s.workers && s.workers[p.ref].id == p.id)
    && (forall r: nat, r': nat :: r < r' < |s.m.heap| ==> s.m.heap[r].id != s.m.heap[r'].id)
  }

  /** The manager's own steps and heartbeats create no entry and rename none. */
  predicate SameNames(m: Manager, m': Manager) {
    |m'.heap| == |m.heap| && forall r: nat :: r < |m.heap| ==> m'.heap[r].id == m.heap[r].id
  }

  lemma BeatSameNames(m: Manager, id: WorkerID, finished: bool, node: ExecutorID, now: Time)
    requires m.Valid() && Heartbeat(m, id, m.epoch, finished, node, now).Went?
    ensures SameNames(m, Heartbeat(m, id, m.epoch, finished, node, now).m)
  {
    if id in m.entries {
      var ref := m.entries[id];
      var m' := Heartbeat(m, id, m.epoch, finished, node, now).m;
      assert |m'.heap| == |m.heap| && m'.heap == m.heap[ref := m'.heap[ref]] && m'.heap[ref].id == m.heap[ref].id;
    }
  }

  lemma TickSameNames(m: Manager, clean: bool)
    requires m.Valid() && TickOne(m, clean).Went?
    ensures SameNames(m, TickOne(m, clean).m)
  {
    if m.next < |m.events| {
      var hooked := HookSameNames(m);
      TickIs(m, clean, hooked);
      CleanSameNames(m, hooked, clean, m.events[m.next]);
    }
  }

  lemma HookSameNames(m: Manager) returns (hooked: Outcome)
    requires m.Valid() && m.next < |m.events|
    ensures hooked == RunHook(m.(next := m.next + 1), m.events[m.next])
    ensures hooked.Went? ==> hooked.m.Valid() && SameNames(m, hooked.m)
  {
    hooked := RunHook(m.(next := m.next + 1), m.events[m.next]);
  }

  lemma CleanSameNames(m: Manager, hooked: Outcome, clean: bool, ev: Event)
    requires hooked.Went? ==> hooked.m.Valid() && SameNames(m, hooked.m)
    ensures var r := AfterCallback(hooked, clean, ev); r.Went? ==> SameNames(m, r.m)
  {}

  lemma OwnSameNames(s: System, step: Step)
    requires s.m.Valid() && OwnStep(s, step) && Apply(s.m, step).Went?
    ensures SameNames(s.m, Apply(s.m, step).m)
  {
    if step.TickStep? { TickSameNames(s.m, step.clean); }
  }

  lemma SameNamesKeep(s: System, m': Manager)
    requires Named(s) && m'.Valid() && SameNames(s.m, m')
    ensures Named(s.(m := m'))
  {}

  lemma SubmitNamed(c: LeaseConfig, s: System, a: Action, s': System)
    requires Named(s) && a.Submit? && Next(c, s, a, s')
    requires forall ref: nat :: ref < |s.m.heap| ==> s.m.heap[ref].id != a.id
    ensures Named(s')
  {}

  lemma NextNamed(c: LeaseConfig, s: System, a: Action, s': System)
    requires Named(s) && Next(c, s, a, s') && s'.m.Valid()
    requires a.Submit? ==> forall ref: nat :: ref < |s.m.heap| ==> s.m.heap[ref].id != a.id
    ensures Named(s')
  {
    match a
    case Submit(_, _, _) => SubmitNamed(c, s, a, s');
    case ManagerStep(step) =>
      OwnSameNames(s, step);
      SameNamesKeep(s, s'.m);
    case DeliverPing(p, node) =>
      BeatSameNames(s.m, p.id, p.finished, node, s.now);
      SameNamesKeep(s, s'.m);
    case _ =>
  }

  lemma {:induction false} RunNamed(c: LeaseConfig, run: Run)
    requires IsRun(c, run) && FreshIds(run)
    ensures Named(Last(run))
    decreases run
  {
    if run.Later? {
      RunNamed(c, run.before);
      NextNamed(c, Last(run.before), run.action, run.system);
    }
  }

  /** With an ID of its own for every incarnation no ping in any run is stale, whatever the time-outs. */
  lemma {:induction false} FreshIdsNeverStale(c: LeaseConfig, run: Run)
    requires IsRun(c, run) && FreshIds(run)
    ensures NeverStale(run) && NeverHarmed(c, run)
    decreases run
  {
    if run.Later? {
      FreshIdsNeverStale(c, run.before);
      RunNamed(c, run.before);
    }
  }

  /** `longer` goes on from `run`, with no more harmful pings. */
  ghost predicate GoesOn(c: LeaseConfig, run: Run, longer: Run) {
    || longer == run
    || (longer.Later? && GoesOn(c, run, longer.before) && Last(longer.before).m.Valid() && longer.system.m.Valid()
        && Next(c, Last(longer.before), longer.action, longer.system) && Harmless(c, Last(longer.before), longer.action))
  }

  ghost predicate SafeFrom(c: LeaseConfig, run: Run) {
    forall longer, ref: nat :: GoesOn(c, run, longer) ==> !Zombie(Last(longer), ref)
  }

  lemma {:induction false} GoesOnKeeps(c: LeaseConfig, run: Run, longer: Run)
    requires Sensible(c) && Safe(c) && LeaseInv(c, Last(run)) && GoesOn(c, run, longer)
    ensures LeaseInv(c, Last(longer))
    decreases longer
  {
    if longer != run {
      GoesOnKeeps(c, run, longer.before);
      NextKeeps(c, Last(longer.before), longer.action, longer.system);
    }
  }

  lemma HarmlessIsSafe(c: LeaseConfig, run: Run, a: Action, s': System)
    requires Sensible(c) && Safe(c) && LeaseInv(c, Last(run)) && Next(c, Last(run), a, s') && Harmless(c, Last(run), a)
    ensures SafeFrom(c, Later(run, a, s'))
  {
    NextKeeps(c, Last(run), a, s');
    forall longer, ref: nat | GoesOn(c, Later(run, a, s'), longer) ensures !Zombie(Last(longer), ref) {
      GoesOnKeeps(c, Later(run, a, s'), longer);
      if ref in Last(longer).workers { assert WorkerOk(c, Last(longer), ref); }
    }
  }

  /** A finished ping at an incarnation that has not stopped leaves it finished and able to tick or start. */
  lemma HarmfulEffect(c: LeaseConfig, s: System, a: Action, s': System)
    requires LeaseInv(c, s) && a.DeliverPing? && Next(c, s, a, s') && !Harmless(c, s, a)
    ensures var ref := s.m.entries[a.ping.id];
      && Inv(s'.m) && s'.m.phase == Ready && ref < |s'.m.heap| && s'.workers == s.workers && ref in s.workers
      && a.ping.id in s'.m.entries && s'.m.entries[a.ping.id] == ref
      && s'.m.heap[ref].finished && !Stopped(c, s', s'.workers[ref])
      && (s'.workers[ref].errored ==> s'.workers[ref].started)
  {
    var ref := s.m.entries[a.ping.id];
    assert WorkerOk(c, s, ref);
    HeartbeatFrame(s.m, a.ping, a.node, s.now);
    HeartbeatEffect(s.m, a.ping, a.node, s.now, ref);
  }

  /** The next check takes a finished entry down. */
  lemma FinishedGoesDown(m: Manager, id: WorkerID, now: Time)
    requires Inv(m) && m.phase == Ready && id in m.entries && m.heap[m.entries[id]].finished
    ensures var r := CheckEntry(m, id, now);
      r.Went? && r.m.Valid() && m.entries[id] < |r.m.heap| && Down(r.m.heap[m.entries[id]])
  {
    CheckKeeps(m, id, now);
  }

  lemma OneOn(c: LeaseConfig, run: Run, longer: Run, s: System, a: Action, s': System) returns (on: Run)
    requires GoesOn(c, run, longer) && Last(longer) == s && s.m.Valid() && s'.m.Valid()
    requires Next(c, s, a, s') && !a.DeliverPing?
    ensures GoesOn(c, run, on) && Last(on) == s'
  {
    on := Later(longer, a, s');
  }

  /** A finished entry whose worker ticks is a zombie's at the next check. */
  lemma CheckFinished(c: LeaseConfig, run: Run, longer: Run, s: System, id: WorkerID) returns (on: Run)
    requires GoesOn(c, run, longer) && Last(longer) == s && Inv(s.m) && s.m.phase == Ready && id in s.m.entries
    requires s.m.heap[s.m.entries[id]].finished
    requires s.m.entries[id] in s.workers && CanTick(s.workers[s.m.entries[id]])
    ensures GoesOn(c, run, on) && Zombie(Last(on), s.m.entries[id])
  {
    FinishedGoesDown(s.m, id, s.now);
    var s' := s.(m := CheckEntry(s.m, id, s.now).m);
    on := OneOn(c, run, longer, s, ManagerStep(CheckStep(id, s.now)), s');
  }

  /** A finished entry whose worker has not stopped, after starting it if need be. */
  lemma FinishedLeadsToZombie(c: LeaseConfig, run: Run, s: System, id: WorkerID) returns (longer: Run)
    requires Last(run) == s && Inv(s.m) && s.m.phase == Ready && id in s.m.entries
    requires s.m.heap[s.m.entries[id]].finished
    requires s.m.entries[id] in s.workers && !Stopped(c, s, s.workers[s.m.entries[id]])
    requires s.workers[s.m.entries[id]].errored ==> s.workers[s.m.entries[id]].started
    ensures GoesOn(c, run, longer) && Zombie(Last(longer), s.m.entries[id])
  {
    var ref := s.m.entries[id];
    if s.workers[ref].started {
      longer := CheckFinished(c, run, run, s, id);
    } else {
      var s1 := s.(workers := s.workers[ref := s.workers[ref].(started := true, lastWatch := s.now)]);
      var begun := OneOn(c, run, run, s, StartWorker(ref), s1);
      longer := CheckFinished(c, run, begun, s1, id);
    }
  }

  lemma HarmfulLeadsToZombie(c: LeaseConfig, run: Run, a: Action, s': System) returns (longer: Run)
    requires LeaseInv(c, Last(run)) && a.DeliverPing? && Next(c, Last(run), a, s') && !Harmless(c, Last(run), a)
    ensures GoesOn(c, Later(run, a, s'), longer) && Zombie(Last(longer), Last(run).m.entries[a.ping.id])
  {
    HarmfulEffect(c, Last(run), a, s');
    longer := FinishedLeadsToZombie(c, Later(run, a, s'), s', a.ping.id);
  }

  /**
   The exact condition on a ping: with safe time-outs, and after any run without harm, delivering it is
   followed by no zombie worker, however things go on, iff it is harmless.
   */
  lemma SafeIffHarmless(c: LeaseConfig, run: Run, a: Action, s': System)
    requires Sensible(c) && Safe(c) && IsRun(c, run) && NeverHarmed(c, run)
    requires a.DeliverPing? && Next(c, Last(run), a, s')
    ensures SafeFrom(c, Later(run, a, s')) <==> Harmless(c, Last(run), a)
  {
    RunKeepsLease(c, run);
    if Harmless(c, Last(run), a) {
      HarmlessIsSafe(c, run, a, s');
    } else {
      var longer := HarmfulLeadsToZombie(c, run, a, s');
    }
  }

  /** With a check right behind it, a finished ping makes a zombie iff it is stale and the successor ticks. */
  lemma ZombieAtOnceIff(c: LeaseConfig, s: System, p: Ping, node: ExecutorID)
    requires Sensible(c) && Safe(c) && LeaseInv(c, s) && p in s.pings && p.finished && p.id in s.m.entries
    ensures var beat := Heartbeat(s.m, p.id, s.m.epoch, true, node, s.now);
      && beat.Went? && CheckEntry(beat.m, p.id, s.now).Went?
      && var s2 := s.(m := CheckEntry(beat.m, p.id, s.now).m);
         Zombie(s2, s.m.entries[p.id]) <==> s.m.entries[p.id] != p.ref && CanTick(s.workers[s.m.entries[p.id]])
  {
    var ref := s.m.entries[p.id];
    assert WorkerOk(c, s, ref) && PingOk(s, p);
    HeartbeatFrame(s.m, p, node, s.now);
    HeartbeatEffect(s.m, p, node, s.now, ref);
    var m1 := Heartbeat(s.m, p.id, s.m.epoch, true, node, s.now).m;
    FinishedGoesDown(m1, p.id, s.now);
  }

  // ---------------------------------------------------------------- aborts

  /** The action delivers an abort to the entry of an incarnation. */
  predicate Drops(s: System, a: Action) {
    && a.ManagerStep? && a.step.TickStep? && s.m.next < |s.m.events|
    && s.m.events[s.m.next].DispatchFailedEvent? && s.m.events[s.m.next].id in s.m.entries
  }

  function Dropped(s: System): nat
    requires s.m.next < |s.m.events| && s.m.events[s.m.next].id in s.m.entries
  {
    s.m.entries[s.m.events[s.m.next].id]
  }

  /** An abort drops an incarnation that has stopped. */
  predicate DropsStopped(c: LeaseConfig, s: System, a: Action) {
    Drops(s, a) ==> Dropped(s) in s.workers && Stopped(c, s, s.workers[Dropped(s)])
  }

  ghost predicate NeverDropped(c: LeaseConfig, run: Run) {
    run.Later? ==> NeverDropped(c, run.before) && DropsStopped(c, Last(run.before), run.action)
  }

  /** What was aborted has stopped. */
  ghost predicate AbortedStopped(c: LeaseConfig, s: System) {
    forall ref :: ref in s.m.aborted ==> ref in s.workers && Stopped(c, s, s.workers[ref])
  }

  /** The one way an incarnation is aborted. */
  lemma AbortedBy(s: System, a: Action, s': System, c: LeaseConfig)
    requires s.m.Valid() && Next(c, s, a, s')
    ensures s'.m.aborted == s.m.aborted + (if Drops(s, a) then {Dropped(s)} else {})
  {
    match a
    case ManagerStep(step) => if step.TickStep? { TickAborts(s.m, step.clean); }
    case _ =>
  }

  lemma TickAborts(m: Manager, clean: bool)
    requires m.Valid() && TickOne(m, clean).Went?
    ensures var m' := TickOne(m, clean).m;
      && (if m.next < |m.events| && m.events[m.next].DispatchFailedEvent? && m.events[m.next].id in m.entries
          then m'.aborted == m.aborted + {m.entries[m.events[m.next].id]} && m.events[m.next].id !in m'.entries
          else m'.aborted == m.aborted)
      && m'.phase == m.phase
  {
    if m.next < |m.events| {
      var hooked := HookSameNames(m);
      TickIs(m, clean, hooked);
    }
  }

  /** Who has stopped stays so. */
  lemma StoppedStays(c: LeaseConfig, s: System, a: Action, s': System, ref: nat)
    requires LeaseInv(c, s) && Next(c, s, a, s') && ref in s.workers && Stopped(c, s, s.workers[ref])
    ensures ref in s'.workers && Stopped(c, s', s'.workers[ref])
  {
    assert WorkerOk(c, s, ref);
  }

  lemma AbortedStoppedKept(c: LeaseConfig, s: System, a: Action, s': System)
    requires LeaseInv(c, s) && AbortedStopped(c, s) && Next(c, s, a, s') && DropsStopped(c, s, a)
    ensures AbortedStopped(c, s')
  {
    AbortedBy(s, a, s', c);
    forall ref | ref in s'.m.aborted ensures ref in s'.workers && Stopped(c, s', s'.workers[ref]) {
      StoppedStays(c, s, a, s', ref);
    }
  }

  lemma {:induction false} RunKeepsStopped(c: LeaseConfig, run: Run)
    requires Sensible(c) && Safe(c) && IsRun(c, run) && NeverHarmed(c, run) && NeverDropped(c, run)
    ensures LeaseInv(c, Last(run)) && AbortedStopped(c, Last(run))
    decreases run
  {
    RunKeepsLease(c, run);
    if run.Later? {
      RunKeepsStopped(c, run.before);
      AbortedStoppedKept(c, Last(run.before), run.action, run.system);
    }
  }

  /** `longer` goes on from `run`, with no more harmful pings, and aborts that drop only who has stopped. */
  ghost predicate GoesOnApart(c: LeaseConfig, run: Run, longer: Run) {
    || longer == run
    || (longer.Later? && GoesOnApart(c, run, longer.before) && Last(longer.before).m.Valid() && longer.system.m.Valid()
        && Next(c, Last(longer.before), longer.action, longer.system) && Harmless(c, Last(longer.before), longer.action)
        && DropsStopped(c, Last(longer.before), longer.action))
  }

  ghost predicate ApartFrom(c: LeaseConfig, run: Run) {
    forall longer, r: nat, r': nat :: GoesOnApart(c, run, longer) ==> !Twins(Last(longer), r, r')
  }

  lemma {:induction false} ApartKeeps(c: LeaseConfig, run: Run, longer: Run)
    requires Sensible(c) && Safe(c) && LeaseInv(c, Last(run)) && AbortedStopped(c, Last(run))
    requires GoesOnApart(c, run, longer)
    ensures LeaseInv(c, Last(longer)) && AbortedStopped(c, Last(longer))
    decreases longer
  {
    if longer != run {
      ApartKeeps(c, run, longer.before);
      NextKeeps(c, Last(longer.before), longer.action, longer.system);
      AbortedStoppedKept(c, Last(longer.before), longer.action, longer.system);
    }
  }

  lemma StoppedStaysApart(c: LeaseConfig, run: Run)
    requires Sensible(c) && Safe(c) && LeaseInv(c, Last(run)) && AbortedStopped(c, Last(run))
    ensures ApartFrom(c, run)
  {
    forall longer, r: nat, r': nat | GoesOnApart(c, run, longer) ensures !Twins(Last(longer), r, r') {
      ApartKeeps(c, run, longer);
      if Twins(Last(longer), r, r') { TwinAborted(c, Last(longer), r, r'); }
    }
  }

  lemma OneOnApart(c: LeaseConfig, run: Run, longer: Run, s: System, a: Action, s': System) returns (on: Run)
    requires GoesOnApart(c, run, longer) && Last(longer) == s && s.m.Valid() && s'.m.Valid()
    requires Next(c, s, a, s') && !a.DeliverPing? && !a.ManagerStep?
    ensures GoesOnApart(c, run, on) && Last(on) == s'
  {
    on := Later(longer, a, s');
  }

  function StartedNow(s: System, ref: nat): System
    requires ref in s.workers
  {
    s.(workers := s.workers[ref := s.workers[ref].(started := true, lastWatch := s.now)])
  }

  /** Beside a worker that ticks and has no entry any more, a second one is submitted and starts. */
  lemma SecondStarts(c: LeaseConfig, run: Run, longer: Run, s: System, ref: nat, node: ExecutorID) returns (on: Run)
    requires Sensible(c) && GoesOnApart(c, run, longer) && Last(longer) == s && s.m.Valid()
    requires ref in s.workers && ref < |s.m.heap| && CanTick(s.workers[ref]) && s.workers[ref].id !in s.m.entries
    ensures GoesOnApart(c, run, on) && Twins(Last(on), ref, |s.m.heap|)
  {
    var id, second := s.workers[ref].id, |s.m.heap|;
    var w := Worker(id, s.now, false, s.now, s.now, s.now, false, WorkerNormal, false);
    var s1 := s.(m := BeforeStarting(s.m, id, node, s.now).m, workers := s.workers[second := w]);
    on := OneOnApart(c, run, longer, s, Submit(id, node, s.now), s1);
    on := OneOnApart(c, run, on, s1, StartWorker(second), StartedNow(s1, second));
  }

  /** An abort that drops an incarnation which has not stopped can leave two that tick. */
  lemma DropLeadsToTwins(c: LeaseConfig, run: Run, a: Action, s': System, node: ExecutorID)
    returns (longer: Run, other: nat)
    requires Sensible(c) && LeaseInv(c, Last(run)) && Next(c, Last(run), a, s') && s'.m.Valid()
    requires Drops(Last(run), a) && !DropsStopped(c, Last(run), a)
    ensures GoesOnApart(c, Later(run, a, s'), longer) && Twins(Last(longer), Dropped(Last(run)), other)
  {
    var s, ref := Last(run), Dropped(Last(run));
    assert WorkerOk(c, s, ref);
    TickAborts(s.m, a.step.clean);
    TickSameNames(s.m, a.step.clean);
    longer := Later(run, a, s');
    other := |s'.m.heap|;
    if s'.workers[ref].started {
      longer := SecondStarts(c, Later(run, a, s'), longer, s', ref, node);
    } else {
      longer := OneOnApart(c, Later(run, a, s'), longer, s', StartWorker(ref), StartedNow(s', ref));
      longer := SecondStarts(c, Later(run, a, s'), longer, StartedNow(s', ref), ref, node);
    }
  }

  /**
   The exact condition on an abort: with safe time-outs, and after any run without harm, delivering it is
   followed by no two incarnations of one ID that tick together, however things go on, iff the
   incarnation it drops, if any, has stopped.
   */
  lemma ApartIffDropsStopped(c: LeaseConfig, run: Run, a: Action, s': System)
    requires Sensible(c) && Safe(c) && IsRun(c, run) && NeverHarmed(c, run) && NeverDropped(c, run)
    requires a.ManagerStep? && a.step.TickStep? && Next(c, Last(run), a, s') && s'.m.Valid()
    ensures ApartFrom(c, Later(run, a, s')) <==> DropsStopped(c, Last(run), a)
  {
    RunKeepsStopped(c, run);
    if DropsStopped(c, Last(run), a) {
      NextKeeps(c, Last(run), a, s');
      AbortedStoppedKept(c, Last(run), a, s');
      StoppedStaysApart(c, Later(run, a, s'));
    } else {
      var longer, other := DropLeadsToTwins(c, run, a, s', ExecutorID(""));
    }
  }

  // ---------------------------------------------------------------- a stale finished ping

  lemma AnyMore(c: LeaseConfig, run: Run, s: System, a: Action, s': System) returns (run': Run)
    requires IsRun(c, run) && Last(run) == s && s'.m.Valid() && Next(c, s, a, s')
    ensures IsRun(c, run') && Last(run') == s'
  {
    run' := Later(run, a, s');
  }

  /** The first life of a worker: it fails, says that it has finished, and is cleaned up. */
  lemma FirstLife(c: LeaseConfig, id: WorkerID, node: ExecutorID) returns (run: Run)
    requires Sensible(c)
    ensures IsRun(c, run) && Last(run).now == 0 && Last(run).workers.Keys == {0}
    ensures Ping(id, 0, 0, true) in Last(run).pings && Last(run).pongs == {Pong(id, 0, true)}
    ensures var m := Last(run).m;
      id !in m.entries && m.phase == Ready && |m.heap| == 1 && |m.events| == m.next && m.timeouts == c.timeouts
    ensures !CanTick(Last(run).workers[0])
  {
    var s2 := Watching(OnlyEntry(c, id, node), id, 0);
    run := StartAt(c, id, node, 0);
    run := FailAndTell(c, id, run, s2);
    run := CleanedUp(c, id, node, run, Last(run));
  }

  lemma FailAndTell(c: LeaseConfig, id: WorkerID, run: Run, s: System) returns (run': Run)
    requires IsRun(c, run) && Last(run) == s && s.now == 0 && s.pings == {}
    requires s.workers == map[0 := NewWorker(id).(started := true)]
    ensures IsRun(c, run') && Last(run') == s.(workers := Last(run').workers, pings := {Ping(id, 0, 0, true)})
    ensures Last(run').workers.Keys == {0} && Last(run').workers[0].errored
  {
    var w := s.workers[0].(errored := true);
    var s1 := s.(workers := s.workers[0 := w]);
    run' := AnyMore(c, run, s, Fail(0), s1);
    var s2 := s1.(workers := s1.workers[0 := Polled(w)]);
    run' := AnyMore(c, run', s1, Poll(0), s2);
    assert s2.pings + {Ping(id, 0, 0, true)} == {Ping(id, 0, 0, true)};
    run' := AnyMore(c, run', s2, SendPing(0), s2.(pings := {Ping(id, 0, 0, true)}));
  }

  /** The finished ping of a created worker brings it online and then down. */
  lemma Finish(m: Manager, id: WorkerID, node: ExecutorID) returns (up: Manager, down: Manager)
    requires m.Valid() && m.phase == Ready && |m.events| == m.next && id in m.entries
    requires m.heap[m.entries[id]].state == Created
    ensures Heartbeat(m, id, m.epoch, true, node, 0) == Went(up) && up.Valid()
    ensures CheckEntry(up, id, 0) == Went(down) && down.Valid()
    ensures down == m.(heap := down.heap, events := down.events) && |down.heap| == |m.heap|
    ensures down.heap[m.entries[id]].state == Offline && down.heap[m.entries[id]].id == id
    ensures |down.events| == m.next + 2
    ensures down.events[m.next].OnlineEvent? && down.events[m.next + 1].OfflineEvent?
    ensures down.events[m.next + 1].ref == m.entries[id]
  {
    up := Heartbeat(m, id, m.epoch, true, node, 0).m;
    down := CheckEntry(up, id, 0).m;
  }

  lemma Clean(m: Manager, id: WorkerID) returns (told: Manager, clean: Manager)
    requires m.Valid() && |m.events| == m.next + 2 && id in m.entries && m.heap[m.entries[id]].state == Offline
    requires m.events[m.next].OnlineEvent?
    requires m.events[m.next + 1].OfflineEvent? && m.events[m.next + 1].ref == m.entries[id]
    ensures TickOne(m, true) == Went(told) && told.Valid()
    ensures TickOne(told, true) == Went(clean) && clean.Valid()
    ensures id !in clean.entries && clean.phase == m.phase && |clean.heap| == |m.heap| && clean.timeouts == m.timeouts
    ensures |clean.events| == clean.next
  {
    told := TickOne(m, true).m;
    assert m.events[m.next + 1].id == id;
    clean := TickOne(told, true).m;
  }

  lemma CleanedUp(c: LeaseConfig, id: WorkerID, node: ExecutorID, run: Run, s: System) returns (run': Run)
    requires s.m == OnlyEntry(c, id, node) && s.now == 0 && s.pings == {Ping(id, 0, 0, true)} && s.pongs == {}
    requires IsRun(c, run) && Last(run) == s
    ensures IsRun(c, run')
    ensures Last(run') == s.(m := Last(run').m, pongs := {Pong(id, 0, true)})
    ensures var m := Last(run').m;
      id !in m.entries && m.phase == Ready && |m.heap| == 1 && |m.events| == m.next && m.timeouts == c.timeouts
  {
    var up, down := Finish(s.m, id, node);
    var told, clean := Clean(down, id);
    var s1 := s.(m := up, pongs := {Pong(id, 0, true)});
    run' := AnyMore(c, run, s, DeliverPing(Ping(id, 0, 0, true), node), s1);
    run' := OwnMore(c, run', s1, CheckStep(id, 0), down);
    run' := OwnMore(c, run', s1.(m := down), TickStep(true), told);
    run' := OwnMore(c, run', s1.(m := told), TickStep(true), clean);
  }

  lemma OwnMore(c: LeaseConfig, run: Run, s: System, step: Step, m': Manager) returns (run': Run)
    requires IsRun(c, run) && Last(run) == s && m'.Valid() && OwnStep(s, step) && Apply(s.m, step) == Went(m')
    ensures IsRun(c, run') && Last(run') == s.(m := m')
  {
    run' := AnyMore(c, run, s, ManagerStep(step), s.(m := m'));
  }

  /**
   Where IDs are reused, as for job masters, a late copy of the finished ping of an earlier life
   takes down its successor, whatever the time-outs.
   */
  lemma {:induction false} StaleFinishedPing(c: LeaseConfig, id: WorkerID, node: ExecutorID) returns (run: Run)
    requires Sensible(c)
    ensures IsRun(c, run) && Zombie(Last(run), 1)
  {
    var first := FirstLife(c, id, node);
    var s := Last(first);
    var m1 := BeforeStarting(s.m, id, node, 0).m;
    var up, down := Finish(m1, id, node);
    run := Succeed(c, id, node, first, s, m1);
    var s2 := Last(run);
    assert s2.pongs + {Pong(id, 0, true)} == s2.pongs;
    run := AnyMore(c, run, s2, DeliverPing(Ping(id, 0, 0, true), node), s2.(m := up));
    run := OwnMore(c, run, s2.(m := up), CheckStep(id, 0), down);
  }

  lemma Succeed(c: LeaseConfig, id: WorkerID, node: ExecutorID, run: Run, s: System, m1: Manager) returns (run': Run)
    requires Sensible(c) && IsRun(c, run) && Last(run) == s && s.now == 0 && |s.m.heap| == 1
    requires BeforeStarting(s.m, id, node, 0) == Went(m1)
    ensures IsRun(c, run')
    ensures Last(run') == s.(m := m1, workers := s.workers[1 := NewWorker(id).(started := true)])
  {
    var s1 := s.(m := m1, workers := s.workers[1 := NewWorker(id)]);
    run' := SubmitSecond(c, id, node, run, s, s1);
    run' := StartSecond(c, id, run', s1);
    SetTwice(s.workers, NewWorker(id), NewWorker(id).(started := true));
  }

  lemma SetTwice(workers: map<nat, Worker>, w: Worker, w': Worker)
    ensures workers[1 := w][1 := w'] == workers[1 := w']
  {}

  lemma SubmitSecond(c: LeaseConfig, id: WorkerID, node: ExecutorID, run: Run, s: System, s1: System) returns (run': Run)
    requires IsRun(c, run) && Last(run) == s && s.now == 0 && |s.m.heap| == 1
    requires BeforeStarting(s.m, id, node, 0) == Went(s1.m)
    requires s1 == s.(m := s1.m, workers := s.workers[1 := NewWorker(id)])
    ensures IsRun(c, run') && Last(run') == s1
  {
    run' := AnyMore(c, run, s, Submit(id, node, 0), s1);
  }

  lemma StartSecond(c: LeaseConfig, id: WorkerID, run: Run, s: System) returns (run': Run)
    requires Sensible(c) && IsRun(c, run) && Last(run) == s && s.now == 0
    requires 1 in s.workers && s.workers[1] == NewWorker(id)
    ensures IsRun(c, run')
    ensures Last(run') == s.(workers := s.workers[1 := NewWorker(id).(started := true)])
  {
    run' := AnyMore(c, run, s, StartWorker(1), s.(workers := s.workers[1 := NewWorker(id).(started := true)]));
  }
}
