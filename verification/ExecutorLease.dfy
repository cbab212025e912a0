/**
 The lease of an executor: its keep-alive loop on one side, the leader's record of it on the other,
 and heartbeats whose requests and replies may be late, lost or out of order.
 */
module ExecutorLease {
  import opened Timeouts

  const MILLISECOND: Time := 1_000_000

  datatype Config = Config(keepAliveTTL: nat, rpcTimeout: nat)

  /** The time-to-live sent to the leader, in whole milliseconds. */
  function RequestTTL(c: Config): nat {
    c.keepAliveTTL / MILLISECOND + c.rpcTimeout / MILLISECOND
  }

  datatype Status = Initing | Running | Tombstone

  /** The leader's record of the executor. */
  datatype Executor = Executor(status: Status, lastUpdateTime: Time, heartbeatTTL: Time)

  /**
   `lastHeartbeat` is the executor's own idea of its last heartbeat; requests and replies are known
   by the tick they were sent at. `acknowledged` says that the executor has received a reply.
   */
  datatype System = System(
    now: Time, lastHeartbeat: Time, leader: Executor, requests: set<Time>, replies: set<Time>, acknowledged: bool)

  datatype Step =
    | Pass(until: Time)
    | Send(tick: Time)
    | Handle(tick: Time)
    | Receive(tick: Time)
    | CheckAlive

  /** After registration, which gives the executor an initial time-to-live. */
  predicate Init(s: System) {
    && s.leader.status == Initing && s.leader.lastUpdateTime <= s.now && s.lastHeartbeat <= s.now
    && s.requests == {} && s.replies == {} && !s.acknowledged
  }

  /** The executor's own check, before it sends and after a failed call. */
  predicate GivesUp(c: Config, s: System) { s.lastHeartbeat + c.keepAliveTTL < s.now }

  predicate Enabled(c: Config, s: System, step: Step) {
    match step
    case Pass(until) => s.now <= until
    case Send(tick) => tick <= s.now && !GivesUp(c, s)
    case Handle(tick) => tick in s.requests
    case Receive(tick) => tick in s.replies
    case CheckAlive => true
  }

  /** HandleHeartbeat of the executor manager, for a request with a status and a time-to-live in milliseconds. */
  function Beat(e: Executor, status: Status, ttl: nat, now: Time): Executor {
    if e.status == Tombstone then e else Executor(status, now, ttl * MILLISECOND)
  }

  function Deadline(e: Executor): Time { e.lastUpdateTime + e.heartbeatTTL }

  /** checkAlive of one executor. */
  function Checked(e: Executor, now: Time): Executor {
    if e.status != Tombstone && Deadline(e) < now then e.(status := Tombstone) else e
  }

  function Apply(c: Config, s: System, step: Step): System
    requires Enabled(c, s, step)
  {
    match step
    case Pass(until) => s.(now := until)
    case Send(tick) => s.(requests := s.requests + {tick})
    case Handle(tick) =>
      s.(leader := Beat(s.leader, Running, RequestTTL(c), s.now),
         replies := if s.leader.status == Tombstone then s.replies else s.replies + {tick})
    case Receive(tick) => s.(lastHeartbeat := tick, acknowledged := true)
    case CheckAlive => s.(leader := Checked(s.leader, s.now))
  }

  // ---------------------------------------------------------------- every run

  datatype Run = Begin(first: System) | Later(before: Run, step: Step, system: System)

  function Last(run: Run): System {
    if run.Begin? then run.first else run.system
  }

  predicate IsRun(c: Config, run: Run) {
    match run
    case Begin(first) => Init(first)
    case Later(before, step, s') =>
      IsRun(c, before) && Enabled(c, Last(before), step) && s' == Apply(c, Last(before), step)
  }

  predicate Inv(c: Config, s: System) {
    && s.leader.lastUpdateTime <= s.now
    && (forall t :: t in s.requests ==> t <= s.now)
    && (forall t :: t in s.replies ==> t <= s.leader.lastUpdateTime)
    && (s.replies != {} ==> s.leader.heartbeatTTL == RequestTTL(c) * MILLISECOND)
    && (s.acknowledged ==> s.replies != {} && s.lastHeartbeat <= s.leader.lastUpdateTime)
  }

  lemma {:induction false} RunKeeps(c: Config, run: Run)
    requires IsRun(c, run)
    ensures Inv(c, Last(run))
    decreases run
  {
    if run.Later? { RunKeeps(c, run.before); }
  }

  /** Truncation to milliseconds costs less than two of them. */
  lemma TruncationBound(c: Config)
    ensures c.keepAliveTTL + c.rpcTimeout - 2 * MILLISECOND < RequestTTL(c) * MILLISECOND <= c.keepAliveTTL + c.rpcTimeout
  {}

  /**
   Once a heartbeat has been answered, the leader's deadline is never earlier than the executor's own
   by more than the truncation: last heartbeat, keep-alive time and call time-out together.
   */
  lemma {:induction false} LeaderWaitsLonger(c: Config, run: Run)
    requires IsRun(c, run) && Last(run).acknowledged
    ensures Last(run).lastHeartbeat + c.keepAliveTTL + c.rpcTimeout - 2 * MILLISECOND < Deadline(Last(run).leader)
  {
    RunKeeps(c, run);
    TruncationBound(c);
  }

  /** So whenever the leader declares the executor dead, the executor has already given up by itself. */
  lemma {:induction false} BuriedAfterGivingUp(c: Config, run: Run)
    requires IsRun(c, run) && Last(run).acknowledged && 2 * MILLISECOND <= c.rpcTimeout + 1
    requires Last(run).leader.status != Tombstone && Checked(Last(run).leader, Last(run).now).status == Tombstone
    ensures GivesUp(c, Last(run))
  {
    LeaderWaitsLonger(c, run);
  }

  /** When the leader last took a heartbeat of the executor, or registered it. */
  function LastHeard(run: Run): Time {
    if run.Begin? then run.first.leader.lastUpdateTime
    else if run.step.Handle? && Last(run.before).leader.status != Tombstone then Last(run.before).now
    else LastHeard(run.before)
  }

  /** The time-to-live it was given then, in nanoseconds. */
  function GivenTTL(c: Config, run: Run): Time {
    if run.Begin? then run.first.leader.heartbeatTTL
    else if run.step.Handle? && Last(run.before).leader.status != Tombstone then
      (c.keepAliveTTL / 1_000_000 + c.rpcTimeout / 1_000_000) * 1_000_000
    else GivenTTL(c, run.before)
  }

  lemma {:induction false} RecordIsLastHeard(c: Config, run: Run)
    requires IsRun(c, run)
    ensures Last(run).leader.lastUpdateTime == LastHeard(run) && Last(run).leader.heartbeatTTL == GivenTTL(c, run)
    decreases run
  {
    if run.Later? { RecordIsLastHeard(c, run.before); }
  }

  /** In every run a check declares a live executor dead iff its time-to-live is over since it was last heard. */
  lemma {:induction false} BuriedIff(c: Config, run: Run)
    requires IsRun(c, run) && Last(run).leader.status != Tombstone
    ensures Apply(c, Last(run), CheckAlive).leader.status == Tombstone
       <==> LastHeard(run) + GivenTTL(c, run) < Last(run).now
    ensures Apply(c, Last(run), CheckAlive).leader.status != Tombstone ==> Apply(c, Last(run), CheckAlive) == Last(run)
  {
    RecordIsLastHeard(c, run);
  }

  /** The tick of the last reply received, or the start. */
  function LastAnswered(run: Run): Time {
    if run.Begin? then run.first.lastHeartbeat
    else if run.step.Receive? then run.step.tick
    else LastAnswered(run.before)
  }

  /** In every run the executor goes on sending iff its keep-alive time is not over since its last answer. */
  lemma {:induction false} SendsIff(c: Config, run: Run, tick: Time)
    requires IsRun(c, run) && tick <= Last(run).now
    ensures Enabled(c, Last(run), Send(tick)) <==> Last(run).now <= LastAnswered(run) + c.keepAliveTTL
    decreases run
  {
    AnsweredLast(c, run);
  }

  lemma {:induction false} AnsweredLast(c: Config, run: Run)
    requires IsRun(c, run)
    ensures Last(run).lastHeartbeat == LastAnswered(run)
    decreases run
  {
    if run.Later? { AnsweredLast(c, run.before); }
  }

  predicate Prefix(run: Run, longer: Run) {
    run == longer || (longer.Later? && Prefix(run, longer.before))
  }

  /** A tombstone stays one, with nothing in its record changing any more. */
  lemma {:induction false} TombstoneAbsorbs(c: Config, run: Run, longer: Run)
    requires IsRun(c, longer) && Prefix(run, longer) && Last(run).leader.status == Tombstone
    ensures Last(longer).leader == Last(run).leader
    decreases longer
  {
    if run != longer { TombstoneAbsorbs(c, run, longer.before); }
  }

  // ---------------------------------------------------------------- the leader's record

  class ExecutorRecord {
    var status: Status
    var lastUpdateTime: Time
    var heartbeatTTL: Time

    function Value(): Executor
      reads this
    {
      Executor(status, lastUpdateTime, heartbeatTTL)
    }

    constructor (now: Time, initHeartbeatTTL: Time)
      ensures Value() == Executor(Initing, now, initHeartbeatTTL)
    {
      status, lastUpdateTime, heartbeatTTL := Initing, now, initHeartbeatTTL;
    }

    /** The part of HandleHeartbeat under the executor's lock. */
    method HandleHeartbeat(sent: Status, ttl: nat, now: Time) returns (ok: bool)
      modifies this
      ensures Value() == Beat(old(Value()), sent, ttl, now) && ok == (old(status) != Tombstone)
      ensures ok ==> status == sent && lastUpdateTime == now && heartbeatTTL == ttl * 1_000_000
    {
      if status == Tombstone { return false; }
      lastUpdateTime := now;
      heartbeatTTL := ttl * MILLISECOND;
      status := sent;
      ok := true;
    }

    method CheckAlive(now: Time) returns (alive: bool)
      modifies this
      ensures Value() == Checked(old(Value()), now) && alive == (status != Tombstone)
      ensures alive <==> old(status) != Tombstone && now <= old(lastUpdateTime) + old(heartbeatTTL)
    {
      if status == Tombstone { return false; }
      if lastUpdateTime + heartbeatTTL < now {
        status := Tombstone;
        return false;
      }
      alive := true;
    }
  }
}
