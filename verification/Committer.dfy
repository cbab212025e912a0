/** The executor's side of two-phase dispatch: prepared requests wait to be confirmed, or expire. */
module Committer {
  import opened Timeouts
  import opened Wrappers

  datatype RequestID = RequestID(name: string)

  datatype TaskID = TaskID(name: string)

  /** A prepared task with the time at which it was submitted. */
  datatype Request = Request(id: RequestID, task: TaskID, submitted: Time, expireAt: Time)

  /** `prepared` and `left` count, for every request ID, how often it came and went. */
  datatype State = State(
    pending: map<RequestID, Request>, byTask: map<TaskID, Request>,
    prepared: multiset<RequestID>, left: multiset<RequestID>)

  /** The two maps are inverses of each other, so a task has at most one pending request. */
  predicate Agree(pending: map<RequestID, Request>, byTask: map<TaskID, Request>) {
    && (forall r :: r in pending ==>
          pending[r].id == r && pending[r].task in byTask && byTask[pending[r].task] == pending[r])
    && (forall t :: t in byTask ==>
          byTask[t].task == t && byTask[t].id in pending && pending[byTask[t].id] == byTask[t])
  }

  predicate Inv(s: State) {
    Agree(s.pending, s.byTask) && s.prepared == s.left + multiset(s.pending.Keys)
  }

  const EMPTY := State(map[], map[], multiset{}, multiset{})

  // ---------------------------------------------------------------- steps

  /** removeRequestByID; both lookups it panics without succeed whenever the maps agree. */
  function Remove(s: State, r: RequestID): State
    requires r in s.pending
  {
    s.(pending := s.pending - {r}, byTask := s.byTask - {s.pending[r].task}, left := s.left + multiset{r})
  }

  function Insert(s: State, request: Request): State {
    s.(pending := s.pending[request.id := request], byTask := s.byTask[request.task := request],
       prepared := s.prepared + multiset{request.id})
  }

  /**
   PreDispatchTask: a duplicate is refused, a stale request of the same task overwritten. Maps that
   disagree on the stale request are a panic, on which nothing is said here.
   */
  function Prepare(s: State, request: Request): State {
    if request.id in s.pending then s
    else if request.task !in s.byTask then Insert(s, request)
    else
      var stale := s.byTask[request.task].id;
      if stale in s.pending then Insert(Remove(s, stale), request) else s
  }

  /** ConfirmDispatchTask, as far as the committer is concerned. */
  function Confirm(s: State, r: RequestID): State {
    if r in s.pending then Remove(s, r) else s
  }

  /** The requests past their expiry, with the clock as it is read for each. */
  function Gone(s: State, now: RequestID -> Time): set<RequestID> {
    set r | r in s.pending && s.pending[r].expireAt < now(r)
  }

  /** checkTTLOnce */
  function Sweep(s: State, now: RequestID -> Time): State {
    var gone := Gone(s, now);
    s.(pending := s.pending - gone,
       byTask := map t | t in s.byTask && now(s.byTask[t].id) <= s.byTask[t].expireAt :: s.byTask[t],
       left := s.left + multiset(gone))
  }

  datatype Step =
    | PrepareStep(request: Request)
    | ConfirmStep(id: RequestID)
    | SweepStep(now: RequestID -> Time)

  function Apply(s: State, step: Step): State {
    match step
    case PrepareStep(request) => Prepare(s, request)
    case ConfirmStep(id) => Confirm(s, id)
    case SweepStep(now) => Sweep(s, now)
  }

  // ---------------------------------------------------------------- what every step keeps

  lemma RemoveKeeps(s: State, r: RequestID)
    requires Inv(s) && r in s.pending
    ensures s.pending[r].task in s.byTask
    ensures Inv(Remove(s, r))
  {
    assert multiset(s.pending.Keys) == multiset(Remove(s, r).pending.Keys) + multiset{r};
  }

  lemma InsertKeeps(s: State, request: Request)
    requires Inv(s) && request.id !in s.pending && request.task !in s.byTask
    ensures Inv(Insert(s, request))
  {
    assert multiset(Insert(s, request).pending.Keys) == multiset(s.pending.Keys) + multiset{request.id};
  }

  lemma SweepKeeps(s: State, now: RequestID -> Time)
    requires Inv(s)
    ensures Inv(Sweep(s, now))
  {
    var gone := Gone(s, now);
    assert multiset(s.pending.Keys) == multiset(s.pending.Keys - gone) + multiset(gone);
    assert Sweep(s, now).pending.Keys == s.pending.Keys - gone;
  }

  /** The maps agree and every prepared request is pending or has left, once, after any step. */
  lemma StepKeeps(s: State, step: Step)
    requires Inv(s)
    ensures Inv(Apply(s, step))
  {
    match step
    case PrepareStep(request) =>
      if request.id !in s.pending {
        if request.task in s.byTask {
          RemoveKeeps(s, s.byTask[request.task].id);
          InsertKeeps(Remove(s, s.byTask[request.task].id), request);
        } else {
          InsertKeeps(s, request);
        }
      }
    case ConfirmStep(id) => if id in s.pending { RemoveKeeps(s, id); }
    case SweepStep(now) => SweepKeeps(s, now);
  }

  /** A request leaves by its own confirmation, by a newer one of its task, or when its time is past. */
  predicate MayLeave(request: Request, step: Step) {
    match step
    case PrepareStep(newer) => newer.task == request.task && newer.id != request.id
    case ConfirmStep(id) => id == request.id
    case SweepStep(now) => request.expireAt < now(request.id)
  }

  /** A sweep keeps exactly the requests whose time is not past, as they are. */
  lemma SweepKeepsIff(s: State, now: RequestID -> Time, r: RequestID)
    ensures r in Sweep(s, now).pending <==> r in s.pending && now(r) <= s.pending[r].expireAt
    ensures r in Sweep(s, now).pending ==> Sweep(s, now).pending[r] == s.pending[r]
  {
    assert r in Gone(s, now) <==> r in s.pending && s.pending[r].expireAt < now(r);
  }

  /** Exactly those requests leave that may; the others stay as they are. */
  lemma LeavesIff(s: State, step: Step, r: RequestID)
    requires Inv(s) && r in s.pending
    requires step.PrepareStep? ==> step.request.id !in s.pending
    ensures r !in Apply(s, step).pending <==> MayLeave(s.pending[r], step)
    ensures r in Apply(s, step).pending ==> Apply(s, step).pending[r] == s.pending[r]
  {
    if step.PrepareStep? && step.request.task in s.byTask {
      assert s.byTask[step.request.task].id in s.pending;
    }
  }

  /** `s'` holds `request` and otherwise only requests that `s` held, unchanged. */
  predicate GainsOnly(s: State, s': State, request: Request) {
    && request.id in s'.pending && s'.pending[request.id] == request
    && forall r :: r in s'.pending && r != request.id ==> r in s.pending && s'.pending[r] == s.pending[r]
  }

  /** A refused duplicate changes nothing; an accepted request is the one pending for its task. */
  lemma PrepareResult(s: State, request: Request)
    requires Inv(s)
    ensures Inv(Prepare(s, request))
    ensures request.id in s.pending ==> Prepare(s, request) == s
    ensures request.id !in s.pending ==>
      && GainsOnly(s, Prepare(s, request), request)
      && request.task in Prepare(s, request).byTask && Prepare(s, request).byTask[request.task] == request
  {
    StepKeeps(s, PrepareStep(request));
  }

  // ---------------------------------------------------------------- the life of a request

  /** A run of the committer, its latest step outermost. */
  datatype Run = Begin | Later(before: Run, step: Step)

  function Last(run: Run): State {
    if run.Begin? then EMPTY else Apply(Last(run.before), run.step)
  }

  lemma {:induction false} RunKeeps(run: Run)
    ensures Inv(Last(run))
    decreases run
  {
    if run.Later? {
      RunKeeps(run.before);
      StepKeeps(Last(run.before), run.step);
    }
  }

  /** `longer` goes on from `run`, without a confirmation of `request` or a newer one of its task or ID. */
  ghost predicate LeftAlone(run: Run, longer: Run, request: Request) {
    || longer == run
    || (longer.Later? && LeftAlone(run, longer.before, request)
        && match longer.step
           case PrepareStep(newer) => newer.task != request.task && newer.id != request.id
           case ConfirmStep(id) => id != request.id
           case SweepStep(_) => true)
  }

  /** No sweep of `longer` after `run` reads a clock later than `deadline` for the request. */
  ghost predicate SweptBy(run: Run, longer: Run, r: RequestID, deadline: Time) {
    longer != run && longer.Later? ==>
      && SweptBy(run, longer.before, r, deadline)
      && (longer.step.SweepStep? ==> longer.step.now(r) <= deadline)
  }

  /**
   A request prepared at `t` with the time-to-live `ttl`, and otherwise left alone, is pending for as long
   as the sweeps come no later than `t + ttl`, and from the first later one on it is not.
   */
  lemma {:induction false} PendingUntilExpiry(run: Run, longer: Run, id: RequestID, task: TaskID, t: Time, ttl: Time)
    requires id !in Last(run).pending
    requires LeftAlone(Later(run, PrepareStep(Request(id, task, t, t + ttl))), longer, Request(id, task, t, t + ttl))
    ensures var prepared := Later(run, PrepareStep(Request(id, task, t, t + ttl)));
      && (id in Last(longer).pending <==> SweptBy(prepared, longer, id, t + ttl))
      && (id in Last(longer).pending ==> Last(longer).pending[id] == Request(id, task, t, t + ttl))
    decreases longer
  {
    var request := Request(id, task, t, t + ttl);
    var prepared := Later(run, PrepareStep(request));
    RunKeeps(run);
    if longer == prepared {
      PrepareResult(Last(run), request);
    } else {
      PendingUntilExpiry(run, longer.before, id, task, t, ttl);
      LeftAloneStep(longer, request);
    }
  }

  lemma LeftAloneStep(longer: Run, request: Request)
    requires longer.Later? && (longer.step.ConfirmStep? ==> longer.step.id != request.id)
    requires longer.step.PrepareStep? ==>
      longer.step.request.task != request.task && longer.step.request.id != request.id
    requires request.id in Last(longer.before).pending ==> Last(longer.before).pending[request.id] == request
    ensures request.id in Last(longer).pending <==>
      && request.id in Last(longer.before).pending
      && (longer.step.SweepStep? ==> longer.step.now(request.id) <= request.expireAt)
    ensures request.id in Last(longer).pending ==> Last(longer).pending[request.id] == request
  {
    RunKeeps(longer.before);
    match longer.step
    case PrepareStep(newer) => PrepareOther(Last(longer.before), newer, request.id);
    case ConfirmStep(_) =>
    case SweepStep(now) => SweepKeepsIff(Last(longer.before), now, request.id);
  }

  lemma PrepareOther(s: State, newer: Request, r: RequestID)
    requires Inv(s) && newer.id != r && (r in s.pending ==> s.pending[r].task != newer.task)
    ensures r in Prepare(s, newer).pending <==> r in s.pending
    ensures r in s.pending ==> Prepare(s, newer).pending[r] == s.pending[r]
  {
    if newer.id !in s.pending {
      PrepareResult(s, newer);
      if r in s.pending { LeavesIff(s, PrepareStep(newer), r); }
    }
  }

  // ---------------------------------------------------------------- the committer itself

  /** TaskCommitter. The runner is the queue of tasks it has accepted and not yet taken up, of bounded length. */
  class TaskCommitter {
    var pendingRequests: map<RequestID, Request>
    var requestsByTaskID: map<TaskID, Request>
    var runner: seq<Request>
    const capacity: nat
    const requestTTL: Time
    ghost var prepared: multiset<RequestID>
    ghost var left: multiset<RequestID>

    ghost function Abstract(): State
      reads this
    {
      State(pendingRequests, requestsByTaskID, prepared, left)
    }

    ghost predicate Valid()
      reads this
    {
      Inv(Abstract())
    }

    constructor (capacity: nat, requestTTL: Time)
      ensures Valid() && Abstract() == EMPTY && runner == []
      ensures this.capacity == capacity && this.requestTTL == requestTTL
    {
      this.capacity, this.requestTTL := capacity, requestTTL;
      pendingRequests, requestsByTaskID, runner := map[], map[], [];
      prepared, left := multiset{}, multiset{};
    }

    method RemoveRequestByID(id: RequestID)
      requires Valid() && id in pendingRequests
      modifies this
      ensures Valid() && Abstract() == Remove(old(Abstract()), id) && runner == old(runner)
    {
      RemoveKeeps(Abstract(), id);
      var taskID := pendingRequests[id].task;
      if taskID !in requestsByTaskID { assert false; }
      pendingRequests := pendingRequests - {id};
      requestsByTaskID := requestsByTaskID - {taskID};
      left := left + multiset{id};
    }

    method PreDispatchTask(id: RequestID, task: TaskID, now: Time) returns (ok: bool)
      requires Valid()
      modifies this
      ensures Valid() && runner == old(runner)
      ensures ok == (id !in old(pendingRequests))
      ensures Abstract() == Prepare(old(Abstract()), Request(id, task, now, now + requestTTL))
    {
      if id in pendingRequests { return false; }
      if task in requestsByTaskID {
        RemoveRequestByID(requestsByTaskID[task].id);
      }
      AddRequest(Request(id, task, now, now + requestTTL));
      ok := true;
    }

    method AddRequest(request: Request)
      requires Valid() && request.id !in pendingRequests && request.task !in requestsByTaskID
      modifies this
      ensures Valid() && Abstract() == Insert(old(Abstract()), request) && runner == old(runner)
    {
      InsertKeeps(Abstract(), request);
      pendingRequests := pendingRequests[request.id := request];
      requestsByTaskID := requestsByTaskID[request.task := request];
      prepared := prepared + multiset{request.id};
    }

    /** The task ID given is not looked at. */
    method ConfirmDispatchTask(id: RequestID, task: TaskID) returns (ok: bool, full: bool)
      requires Valid()
      modifies this
      ensures Valid() && Abstract() == Confirm(old(Abstract()), id)
      ensures ok ==> id in old(pendingRequests) && runner == old(runner) + [old(pendingRequests)[id]]
      ensures !ok ==> runner == old(runner)
      ensures full <==> id in old(pendingRequests) && |old(runner)| >= capacity
      ensures ok <==> id in old(pendingRequests) && |old(runner)| < capacity
    {
      if id !in pendingRequests { return false, false; }
      var request := pendingRequests[id];
      RemoveRequestByID(id);
      if |runner| >= capacity { return false, true; }
      runner := runner + [request];
      return true, false;
    }

    /** The runner's own loop takes the oldest task off its queue, which makes room. */
    method TakeTask() returns (task: Option<Request>)
      requires Valid()
      modifies this`runner
      ensures Valid()
      ensures old(runner) == [] ==> task == None && runner == []
      ensures old(runner) != [] ==> task.Some? && old(runner) == [task.value] + runner
    {
      if runner == [] { return None; }
      task := Some(runner[0]);
      runner := runner[1..];
    }

    /** The clock is read anew for every request. */
    method CheckTTLOnce(now: RequestID -> Time)
      requires Valid()
      modifies this
      ensures Valid() && Abstract() == Sweep(old(Abstract()), now) && runner == old(runner)
      ensures forall r ::
        r in pendingRequests <==> r in old(pendingRequests) && now(r) <= old(pendingRequests)[r].expireAt
    {
      ghost var before := Abstract();
      var todo := pendingRequests.Keys;
      while todo != {}
        invariant Valid() && runner == old(runner) && todo <= pendingRequests.Keys
        invariant Sweep(Abstract(), now) == Sweep(before, now)
        invariant forall r :: r in pendingRequests && r !in todo ==> now(r) <= pendingRequests[r].expireAt
        decreases todo
      {
        var r :| r in todo;
        todo := todo - {r};
        if pendingRequests[r].expireAt < now(r) {
          SweepRemoved(Abstract(), r, now);
          RemoveRequestByID(r);
        }
      }
      NothingPast(Abstract(), now);
      forall r ensures r in Sweep(before, now).pending <==> r in before.pending && now(r) <= before.pending[r].expireAt {
        SweepKeepsIff(before, now, r);
      }
    }
  }

  /** Removing a request that is past its time first makes no difference to a sweep. */
  lemma SweepRemoved(s: State, r: RequestID, now: RequestID -> Time)
    requires Inv(s) && r in s.pending && s.pending[r].expireAt < now(r)
    ensures Sweep(Remove(s, r), now) == Sweep(s, now)
  {
    SweepGone(s, r, now);
    SweepByTask(s, r, now);
  }

  lemma SweepGone(s: State, r: RequestID, now: RequestID -> Time)
    requires r in s.pending && s.pending[r].expireAt < now(r)
    ensures Sweep(Remove(s, r), now).pending == Sweep(s, now).pending
    ensures Sweep(Remove(s, r), now).left == Sweep(s, now).left
  {
    var s' := Remove(s, r);
    assert Gone(s, now) == Gone(s', now) + {r};
    assert multiset(Gone(s, now)) == multiset(Gone(s', now)) + multiset{r};
  }

  lemma SweepByTask(s: State, r: RequestID, now: RequestID -> Time)
    requires Inv(s) && r in s.pending && s.pending[r].expireAt < now(r)
    ensures Sweep(Remove(s, r), now).byTask == Sweep(s, now).byTask
  {
    assert s.byTask[s.pending[r].task] == s.pending[r];
  }

  lemma NothingPast(s: State, now: RequestID -> Time)
    requires Inv(s) && forall r :: r in s.pending ==> now(r) <= s.pending[r].expireAt
    ensures Sweep(s, now) == s
  {
    assert Gone(s, now) == {};
    forall t | t in s.byTask ensures now(s.byTask[t].id) <= s.byTask[t].expireAt {
      assert s.byTask[t].id in s.pending;
    }
  }
}
