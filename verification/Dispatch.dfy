/**
 Two-phase dispatch of one worker: the TaskDispatcher of the master against the TaskCommitter of the
 executor, over calls whose requests and replies can be late or lost, among other masters' calls.
 */
module Dispatch {
  import opened Timeouts
  import opened Wrappers
  import opened Committer

  datatype Code = Aborted | NotFound | AlreadyExists | Unavailable | DeadlineExceeded | Canceled | Unknown

  /** What a remote call returns. */
  datatype Reply = Success | Status(code: Code) | NotGrpc

  /** Errors that need not come from the executor: the request may have been served or not. */
  predicate FromFramework(r: Reply) {
    r.NotGrpc? || (r.Status? && r.code !in {Aborted, NotFound, AlreadyExists})
  }

  datatype PrepareVerdict = Prepared | Retry | GiveUp | Unexpected

  /** preDispatchTaskOnce on the reply. */
  function JudgePrepare(r: Reply): PrepareVerdict {
    match r
    case Success => Prepared
    case NotGrpc => GiveUp
    case Status(Aborted) => GiveUp
    case Status(AlreadyExists) => Unexpected
    case Status(_) => Retry
  }

  datatype ConfirmVerdict = Confirmed | GuaranteedFailure | Undetermined

  /** confirmDispatchTask on the reply. */
  function JudgeConfirm(r: Reply): ConfirmVerdict {
    match r
    case Success => Confirmed
    case Status(Aborted) => GuaranteedFailure
    case Status(NotFound) => GuaranteedFailure
    case _ => Undetermined
  }

  // ---------------------------------------------------------------- the dispatcher alone

  datatype Result = Dispatched | PrepareFailed | ConfirmFailed | Panicked

  /** A reply that is answered by another attempt: any code but the two that the executor itself gives. */
  predicate Transient(r: Reply) { r.Status? && r.code != Aborted && r.code != AlreadyExists }

  predicate AllTransient(prepares: seq<Reply>, n: nat)
    requires n <= |prepares|
  {
    forall i :: 0 <= i < n ==> Transient(prepares[i])
  }

  /** The first reply that is not transient is `r`. */
  predicate Decides(prepares: seq<Reply>, r: Reply) {
    exists k: nat :: k < |prepares| && AllTransient(prepares, k) && prepares[k] == r
  }

  /** The first reply that is not transient is the only one. */
  lemma DecidesOnce(prepares: seq<Reply>, k: nat, r: Reply)
    requires k < |prepares| && AllTransient(prepares, k) && !Transient(prepares[k]) && !Transient(r)
    ensures Decides(prepares, r) <==> r == prepares[k]
  {}

  /**
   DispatchTask, given the replies to the prepare attempts the deadline leaves time for and the reply
   to the confirmation. Reports whether startWorkerTimer and abortWorker were called.
   */
  method DispatchTask(prepares: seq<Reply>, confirm: Reply) returns (r: Result, started: bool, aborted: bool)
    ensures started <==> Decides(prepares, Success)
    ensures aborted <==> started && (confirm == Status(Aborted) || confirm == Status(NotFound))
    ensures r == Panicked <==> Decides(prepares, Status(AlreadyExists))
    ensures r == ConfirmFailed <==> aborted
    ensures r == Dispatched <==> started && !aborted
  {
    started, aborted := false, false;
    var i := 0;
    while i < |prepares|
      invariant i <= |prepares| && AllTransient(prepares, i)
    {
      var verdict := JudgePrepare(prepares[i]);
      if verdict != Retry {
        DecidesOnce(prepares, i, Success);
        DecidesOnce(prepares, i, Status(AlreadyExists));
      }
      if verdict == Prepared {
        var failed := JudgeConfirm(confirm) == GuaranteedFailure;
        return if failed then ConfirmFailed else Dispatched, true, failed;
      }
      if verdict == GiveUp { return PrepareFailed, false, false; }
      if verdict == Unexpected { return Panicked, false, false; }
      i := i + 1;
    }
    r := PrepareFailed;
  }

  // ---------------------------------------------------------------- dispatcher and committer

  datatype Client = Ready | Waiting(id: RequestID) | Acknowledged(id: RequestID) | Confirming | Finished | ClientPanic

  datatype Confirmation = NotSent | InFlight(id: RequestID) | Answered(reply: Reply)

  /**
   One call of DispatchTask for `worker`. `flying` holds its prepare requests that may still reach
   the executor, `replies` what the executor answered, `ids` all request IDs of the call, and
   `used` every request ID there ever was. `tasks` is what the executor's runner has accepted.
   */
  datatype Call = Call(
    worker: TaskID, now: Time, ttl: Time, executor: State, tasks: seq<Request>,
    client: Client, ids: set<RequestID>, used: set<RequestID>, flying: set<RequestID>, replies: map<RequestID, Reply>,
    confirm: Confirmation, started: Option<Time>, aborted: bool)

  datatype Move =
    | Pass(until: Time)
    | SendPrepare(id: RequestID)
    | ArrivePrepare(id: RequestID, taskMade: bool)
    | PrepareReturns(reply: Reply)
    | ContextDone
    | StartTimer
    | ArriveConfirm(room: bool)
    | ConfirmReturns(reply: Reply)
    | OtherPrepare(request: Request)
    | OtherConfirm(id: RequestID, room: bool)
    | SweepTTL(now: RequestID -> Time)

  /** The executor's answer to a prepare request, and its new state. */
  function PrepareReply(s: State, id: RequestID, taskMade: bool): Reply {
    if !taskMade then Status(Aborted) else if id in s.pending then Status(AlreadyExists) else Success
  }

  function ConfirmReply(s: State, id: RequestID, room: bool): Reply {
    if id !in s.pending then Status(NotFound) else if room then Success else Status(Aborted)
  }

  function Accepted(s: State, id: RequestID, room: bool): seq<Request> {
    if id in s.pending && room then [s.pending[id]] else []
  }

  predicate Enabled(c: Call, mv: Move) {
    match mv
    case Pass(until) => c.now <= until
    case SendPrepare(id) => c.client.Ready? && id !in c.used
    case ArrivePrepare(id, _) => id in c.flying
    case PrepareReturns(reply) =>
      c.client.Waiting? && (FromFramework(reply) || (c.client.id in c.replies && reply == c.replies[c.client.id]))
    case ContextDone => c.client.Ready?
    case StartTimer => c.client.Acknowledged?
    case ArriveConfirm(_) => c.confirm.InFlight?
    case ConfirmReturns(reply) => c.client.Confirming? && (FromFramework(reply) || c.confirm == Answered(reply))
    case OtherPrepare(request) => request.task != c.worker && request.id !in c.used && request.submitted == c.now
    case OtherConfirm(id, _) =>
      id !in c.ids && (id in c.executor.pending ==> c.executor.pending[id].task != c.worker)
    case SweepTTL(_) => true
  }

  function Made(c: Call, mv: Move): Call
    requires Enabled(c, mv)
  {
    match mv
    case Pass(until) => c.(now := until)
    case SendPrepare(id) =>
      c.(client := Waiting(id), ids := c.ids + {id}, used := c.used + {id}, flying := c.flying + {id})
    case ArrivePrepare(id, taskMade) =>
      c.(flying := c.flying - {id}, replies := c.replies[id := PrepareReply(c.executor, id, taskMade)],
         executor := if taskMade then Prepare(c.executor, Request(id, c.worker, c.now, c.now + c.ttl)) else c.executor)
    case PrepareReturns(reply) =>
      c.(client := match JudgePrepare(reply)
           case Prepared => Acknowledged(c.client.id)
           case Retry => Ready
           case GiveUp => Finished
           case Unexpected => ClientPanic)
    case ContextDone => c.(client := Finished)
    case StartTimer => c.(client := Confirming, confirm := InFlight(c.client.id), started := Some(c.now))
    case ArriveConfirm(room) =>
      c.(confirm := Answered(ConfirmReply(c.executor, c.confirm.id, room)),
         executor := Confirm(c.executor, c.confirm.id),
         tasks := c.tasks + Accepted(c.executor, c.confirm.id, room))
    case ConfirmReturns(reply) =>
      c.(client := Finished, aborted := JudgeConfirm(reply) == GuaranteedFailure)
    case OtherPrepare(request) =>
      c.(executor := Prepare(c.executor, request), used := c.used + {request.id})
    case OtherConfirm(id, room) =>
      c.(executor := Confirm(c.executor, id), tasks := c.tasks + Accepted(c.executor, id, room))
    case SweepTTL(now) => c.(executor := Sweep(c.executor, now))
  }

  /** Before the call: the executor may know other requests, even a stale one of this worker. */
  predicate Fresh(c: Call) {
    && Inv(c.executor) && c.executor.pending.Keys <= c.used
    && (forall r :: r in c.executor.pending ==> c.executor.pending[r].submitted <= c.now)
    && NoneFor(c.tasks, c.worker)
    && c.client == Ready && c.ids == {} && c.flying == {} && c.replies == map[]
    && c.confirm == NotSent && c.started == None && !c.aborted
  }

  // ---------------------------------------------------------------- the invariant

  predicate NoneFor(tasks: seq<Request>, worker: TaskID) {
    forall i :: 0 <= i < |tasks| ==> tasks[i].task != worker
  }

  /** Exactly one task for the worker, submitted no later than `latest`. */
  predicate OneFor(tasks: seq<Request>, worker: TaskID, latest: Time) {
    exists i :: 0 <= i < |tasks| && tasks[i].task == worker && tasks[i].submitted <= latest
      && forall j :: 0 <= j < |tasks| && tasks[j].task == worker ==> j == i
  }

  predicate RequestsOk(c: Call) {
    && c.executor.pending.Keys <= c.used && c.ids <= c.used && c.flying <= c.ids
    && c.flying !! c.executor.pending.Keys && c.flying !! c.replies.Keys && c.replies.Keys <= c.ids
    && (forall r :: r in c.replies ==> c.replies[r] != Status(AlreadyExists))
    && (forall r :: r in c.executor.pending ==> c.executor.pending[r].submitted <= c.now)
    && (forall r :: r in c.executor.pending && r in c.ids ==> c.executor.pending[r].task == c.worker)
  }

  predicate ClientOk(c: Call) {
    && c.client != ClientPanic
    && (c.client.Waiting? ==> c.client.id in c.ids)
    && (c.client.Acknowledged? ==> c.client.id in c.replies)
    && (c.started.None? <==> c.confirm.NotSent?)
    && (c.client.Ready? || c.client.Waiting? || c.client.Acknowledged? ==> c.confirm.NotSent?)
    && (c.client.Confirming? ==> !c.confirm.NotSent?)
    && (c.aborted ==> c.client.Finished? && c.confirm.Answered? && JudgeConfirm(c.confirm.reply) == GuaranteedFailure)
  }

  predicate ConfirmOk(c: Call) {
    match c.confirm
    case NotSent => NoneFor(c.tasks, c.worker)
    case InFlight(id) =>
      && NoneFor(c.tasks, c.worker) && c.started.Some? && id in c.replies
      && (id in c.executor.pending ==> c.executor.pending[id].submitted <= c.started.value)
    case Answered(reply) =>
      && c.started.Some? && reply in {Success, Status(NotFound), Status(Aborted)}
      && if reply == Success then OneFor(c.tasks, c.worker, c.started.value) else NoneFor(c.tasks, c.worker)
  }

  predicate CallInv(c: Call) {
    Inv(c.executor) && RequestsOk(c) && ClientOk(c) && ConfirmOk(c)
  }

  // ---------------------------------------------------------------- every move keeps it

  lemma AddOther(tasks: seq<Request>, more: seq<Request>, worker: TaskID, latest: Time)
    requires NoneFor(more, worker)
    ensures NoneFor(tasks, worker) ==> NoneFor(tasks + more, worker)
    ensures OneFor(tasks, worker, latest) ==> OneFor(tasks + more, worker, latest)
  {
    var all := tasks + more;
    assert forall i :: |tasks| <= i < |all| ==> all[i] == more[i - |tasks|];
    if OneFor(tasks, worker, latest) {
      var i :| 0 <= i < |tasks| && tasks[i].task == worker && tasks[i].submitted <= latest
        && forall j :: 0 <= j < |tasks| && tasks[j].task == worker ==> j == i;
      assert all[i] == tasks[i];
    }
  }

  lemma AddMine(tasks: seq<Request>, request: Request, latest: Time)
    requires NoneFor(tasks, request.task) && request.submitted <= latest
    ensures OneFor(tasks + [request], request.task, latest)
  {
    assert (tasks + [request])[|tasks|] == request;
  }

  /** The requests pending after a prepare, of this call or of another. */
  lemma GainKeeps(c: Call, c': Call, request: Request)
    requires RequestsOk(c) && ConfirmOk(c) && GainsOnly(c.executor, c'.executor, request)
    requires request.id !in c.executor.pending && request.submitted == c.now
    requires c' == c.(executor := c'.executor, ids := c'.ids, used := c'.used, flying := c'.flying, replies := c'.replies)
    requires c'.ids == c.ids && request.id in c'.used && c.used <= c'.used
    requires request.id !in c'.flying && c'.flying <= c.flying
    requires c'.flying !! c'.replies.Keys && c.replies.Keys <= c'.replies.Keys <= c.ids && request.id !in c.replies
    requires forall r :: r in c'.replies ==> c'.replies[r] != Status(AlreadyExists)
    requires request.id in c.ids ==> request.task == c.worker
    ensures RequestsOk(c') && ConfirmOk(c')
  {}

  lemma ArrivePrepareKeeps(c: Call, id: RequestID, taskMade: bool)
    requires CallInv(c) && id in c.flying
    ensures CallInv(Made(c, ArrivePrepare(id, taskMade)))
  {
    if taskMade {
      var request := Request(id, c.worker, c.now, c.now + c.ttl);
      PrepareResult(c.executor, request);
      GainKeeps(c, Made(c, ArrivePrepare(id, taskMade)), request);
    }
  }

  lemma ArriveConfirmKeeps(c: Call, room: bool)
    requires CallInv(c) && c.confirm.InFlight?
    ensures CallInv(Made(c, ArriveConfirm(room)))
  {
    var id := c.confirm.id;
    StepKeeps(c.executor, ConfirmStep(id));
    if id in c.executor.pending && room {
      AddMine(c.tasks, c.executor.pending[id], c.started.value);
    } else {
      assert c.tasks + [] == c.tasks;
    }
  }

  lemma OtherPrepareKeeps(c: Call, request: Request)
    requires CallInv(c) && Enabled(c, OtherPrepare(request))
    ensures CallInv(Made(c, OtherPrepare(request)))
  {
    PrepareResult(c.executor, request);
    GainKeeps(c, Made(c, OtherPrepare(request)), request);
  }

  lemma OtherConfirmKeeps(c: Call, id: RequestID, room: bool)
    requires CallInv(c) && Enabled(c, OtherConfirm(id, room))
    ensures CallInv(Made(c, OtherConfirm(id, room)))
  {
    StepKeeps(c.executor, ConfirmStep(id));
    AddOther(c.tasks, Accepted(c.executor, id, room), c.worker, if c.started.Some? then c.started.value else 0);
  }

  lemma MoveKeeps(c: Call, mv: Move)
    requires CallInv(c) && Enabled(c, mv)
    ensures CallInv(Made(c, mv))
  {
    match mv
    case ArrivePrepare(id, taskMade) => ArrivePrepareKeeps(c, id, taskMade);
    case ArriveConfirm(room) => ArriveConfirmKeeps(c, room);
    case OtherPrepare(request) => OtherPrepareKeeps(c, request);
    case OtherConfirm(id, room) => OtherConfirmKeeps(c, id, room);
    case SweepTTL(now) => SweepKeeps(c.executor, now);
    case _ =>
  }

  // ---------------------------------------------------------------- every run

  datatype Run = Begin(first: Call) | Later(before: Run, move: Move, call: Call)

  function Last(run: Run): Call {
    if run.Begin? then run.first else run.call
  }

  predicate IsRun(run: Run) {
    match run
    case Begin(first) => Fresh(first)
    case Later(before, mv, c') => IsRun(before) && Enabled(Last(before), mv) && c' == Made(Last(before), mv)
  }

  lemma {:induction false} RunKeeps(run: Run)
    requires IsRun(run)
    ensures CallInv(Last(run))
    decreases run
  {
    if run.Later? {
      RunKeeps(run.before);
      MoveKeeps(Last(run.before), run.move);
    }
  }

  /**
   In every run at most one task is accepted for the worker, none before startWorkerTimer or if
   abortWorker is called, and its submission was no later than startWorkerTimer.
   */
  lemma {:induction false} DispatchedAtMostOnce(run: Run, i: nat)
    requires IsRun(run) && i < |Last(run).tasks| && Last(run).tasks[i].task == Last(run).worker
    ensures var c := Last(run);
      && !c.aborted && c.started.Some? && c.tasks[i].submitted <= c.started.value
      && forall j :: 0 <= j < |c.tasks| && c.tasks[j].task == c.worker ==> j == i
  {
    RunKeeps(run);
  }

  /** `longer` goes on where `run` ends. */
  ghost predicate Prefix(run: Run, longer: Run) {
    run == longer || (longer.Later? && Prefix(run, longer.before))
  }

  /** What abortWorker stands for: the worker has not been accepted, and never will be. */
  lemma {:induction false} AbortIsFinal(run: Run, longer: Run)
    requires IsRun(longer) && Prefix(run, longer) && Last(run).aborted
    ensures Last(longer).aborted && Last(longer).worker == Last(run).worker
    ensures NoneFor(Last(longer).tasks, Last(run).worker)
    decreases longer
  {
    RunKeeps(longer);
    if run != longer {
      AbortIsFinal(run, longer.before);
      RunKeeps(longer.before);
    }
  }

  /** The replies to the prepare attempts, in the order they returned, and the reply to the confirmation. */
  function Prepares(run: Run): seq<Reply> {
    if run.Begin? then []
    else Prepares(run.before) + (if run.move.PrepareReturns? then [run.move.reply] else [])
  }

  function ConfirmReturned(run: Run): Option<Reply> {
    if run.Begin? then None
    else if run.move.ConfirmReturns? then Some(run.move.reply)
    else ConfirmReturned(run.before)
  }

  lemma OneReplyMore(prepares: seq<Reply>, r: Reply)
    requires AllTransient(prepares, |prepares|)
    ensures AllTransient(prepares + [r], |prepares|)
    ensures AllTransient(prepares + [r], |prepares| + 1) <==> Transient(r)
    ensures !Transient(r) ==> forall other :: !Transient(other) ==> (Decides(prepares + [r], other) <==> other == r)
  {
    var all := prepares + [r];
    assert all[|prepares|] == r && forall i :: 0 <= i < |prepares| ==> all[i] == prepares[i];
    if !Transient(r) {
      forall other | !Transient(other) ensures Decides(all, other) <==> other == r {
        DecidesOnce(all, |prepares|, other);
      }
    }
  }

  lemma NoneDecides(prepares: seq<Reply>, r: Reply)
    requires AllTransient(prepares, |prepares|) && !Transient(r)
    ensures !Decides(prepares, r)
  {}

  /** Where the dispatcher stands, by the replies it has got. */
  predicate StandsBy(c: Call, rs: seq<Reply>, confirmed: Option<Reply>) {
    && (c.client.Ready? || c.client.Waiting? ==> AllTransient(rs, |rs|))
    && (c.client.Acknowledged? || c.started.Some? <==> Decides(rs, Success))
    && (c.client.ClientPanic? <==> Decides(rs, Status(AlreadyExists)))
    && (c.aborted <==> confirmed == Some(Status(Aborted)) || confirmed == Some(Status(NotFound)))
  }

  lemma PrepareStandsBy(c: Call, reply: Reply, rs: seq<Reply>, confirmed: Option<Reply>)
    requires ClientOk(c) && Enabled(c, PrepareReturns(reply)) && StandsBy(c, rs, confirmed)
    ensures StandsBy(Made(c, PrepareReturns(reply)), rs + [reply], confirmed)
  {
    OneReplyMore(rs, reply);
    if Transient(reply) {
      NoneDecides(rs + [reply], Success);
      NoneDecides(rs + [reply], Status(AlreadyExists));
    }
  }

  lemma ConfirmStandsBy(c: Call, reply: Reply, rs: seq<Reply>, confirmed: Option<Reply>)
    requires ClientOk(c) && Enabled(c, ConfirmReturns(reply)) && StandsBy(c, rs, confirmed)
    ensures StandsBy(Made(c, ConfirmReturns(reply)), rs, Some(reply))
  {}

  lemma OtherStandsBy(c: Call, mv: Move, rs: seq<Reply>, confirmed: Option<Reply>)
    requires ClientOk(c) && Enabled(c, mv) && !mv.PrepareReturns? && !mv.ConfirmReturns? && StandsBy(c, rs, confirmed)
    ensures StandsBy(Made(c, mv), rs, confirmed)
  {}

  /**
   In every run the dispatcher does what DispatchTask does with the replies it has got: it goes on while
   they are transient, confirms iff the first other one is a success, and aborts by the confirmation.
   */
  lemma {:induction false} FollowsReplies(run: Run)
    requires IsRun(run)
    ensures StandsBy(Last(run), Prepares(run), ConfirmReturned(run))
    decreases run
  {
    match run
    case Begin(_) =>
      NoneDecides([], Success);
      NoneDecides([], Status(AlreadyExists));
    case Later(before, mv, _) =>
      FollowsReplies(before);
      RunKeeps(before);
      var c, rs, confirmed := Last(before), Prepares(before), ConfirmReturned(before);
      match mv {
        case PrepareReturns(reply) => PrepareStandsBy(c, reply, rs, confirmed);
        case ConfirmReturns(reply) => ConfirmStandsBy(c, reply, rs, confirmed);
        case _ => OtherStandsBy(c, mv, rs, confirmed);
      }
      assert !mv.PrepareReturns? ==> rs + [] == rs;
  }

  /** With fresh request IDs the executor never reports a duplicate, so the dispatcher never panics. */
  lemma {:induction false} NoDuplicateReported(run: Run)
    requires IsRun(run)
    ensures Last(run).client != ClientPanic
    ensures forall r :: r in Last(run).replies ==> Last(run).replies[r] != Status(AlreadyExists)
  {
    RunKeeps(run);
  }
}
