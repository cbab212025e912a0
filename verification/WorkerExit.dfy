/**
 How a worker comes to its end: the error center and the exit controller under every interleaving of
 one polling goroutine with reported errors, forced exits and pongs. Each access to shared state is a step.
 */
module WorkerExit {
  import opened Timeouts
  import opened Wrappers

  type Failure = string

  const WAIT_FOR_MASTER: Time := 15 * SECOND

  datatype ExitFsm = NormalExit | HalfExit | Exited

  /** Where the poll in progress stands, and what it has read. */
  datatype Poll =
    | Idle
    | HasError(err: Failure)
    | HasState(err: Failure, fsm: ExitFsm)
    | Swapped                   // the state was swapped in; halfExitTime is not yet stored
    | NotClosed(err: Failure)   // the master side was found open; the time is not yet compared
    | FoundClosed(err: Failure) // it was found closed; the state is not yet stored

  /** What a finished poll returned. */
  datatype Answer = GoOn | HalfWay | Fatal(err: Failure)

  /**
   `received` and `answers` record history; `forcing` counts the forced exits that have reported
   their error but not yet stored the state; `closes` counts the closings of doneCh.
   */
  datatype Exit = Exit(
    now: Time, errVal: Option<Failure>, closes: nat, fsm: ExitFsm, halfExitTime: Time, closed: bool,
    poll: Poll, forcing: nat, received: seq<Failure>, answers: seq<Answer>)

  datatype Act =
    | Pass(until: Time)
    | OnError(err: Failure)
    | ForceReport(err: Failure) | ForceStore
    | PongFinished
    | CheckError | LoadState | Decide | StoreTime | CompareTime | StoreExit

  function Start(now: Time): Exit {
    Exit(now, None, 0, NormalExit, 0, false, Idle, 0, [], [])
  }

  /** ErrCenter.OnError */
  function Report(x: Exit, err: Failure): Exit {
    var x' := x.(received := x.received + [err]);
    if x.errVal.Some? then x' else x'.(errVal := Some(err), closes := x.closes + 1)
  }

  function Return(x: Exit, answer: Answer): Exit {
    x.(poll := Idle, answers := x.answers + [answer])
  }

  predicate Enabled(x: Exit, a: Act) {
    match a
    case Pass(until) => x.now <= until
    case OnError(_) => true
    case ForceReport(_) => true
    case ForceStore => x.forcing > 0
    case PongFinished => true
    case CheckError => x.poll.Idle?
    case LoadState => x.poll.HasError?
    case Decide => x.poll.HasState?
    case StoreTime => x.poll.Swapped?
    case CompareTime => x.poll.NotClosed?
    case StoreExit => x.poll.FoundClosed?
  }

  function Do(x: Exit, a: Act): Exit
    requires Enabled(x, a)
  {
    match a
    case Pass(until) => x.(now := until)
    case OnError(err) => Report(x, err)
    case ForceReport(err) => Report(x, err).(forcing := x.forcing + 1)
    case ForceStore => x.(fsm := Exited, forcing := x.forcing - 1)
    case PongFinished => x.(closed := true)
    case CheckError => if x.errVal.None? then Return(x, GoOn) else x.(poll := HasError(x.errVal.value))
    case LoadState => x.(poll := HasState(x.poll.err, x.fsm))
    case Decide =>
      (match x.poll.fsm
       case NormalExit => x.(fsm := if x.fsm == NormalExit then HalfExit else x.fsm, poll := Swapped)
       case HalfExit =>
         x.(poll := if x.closed then FoundClosed(x.poll.err) else NotClosed(x.poll.err))
       case Exited => Return(x, Fatal(x.poll.err)))
    case StoreTime => Return(x.(halfExitTime := x.now), HalfWay)
    case CompareTime =>
      if Expired(x) then Return(x, Fatal(x.poll.err)) else Return(x, HalfWay)
    case StoreExit => Return(x.(fsm := Exited), Fatal(x.poll.err))
  }

  /** A poll from beginning to end that nothing interrupts. */
  function PollAll(x: Exit): Exit
    requires x.poll.Idle?
  {
    var checked := Do(x, CheckError);
    if checked.poll.Idle? then checked
    else
      var decided := Do(Do(checked, LoadState), Decide);
      if decided.poll.Swapped? then Do(decided, StoreTime)
      else if decided.poll.NotClosed? then Do(decided, CompareTime)
      else if decided.poll.FoundClosed? then Do(decided, StoreExit)
      else decided
  }

  /**
   The answer of a poll that nothing interrupts: none without an error, half-exit at first, and then the
   error as soon as the master side is closed or more than 15 seconds have passed.
   */
  lemma PollAnswers(x: Exit)
    requires x.poll.Idle?
    ensures var x' := PollAll(x);
      && x'.poll.Idle? && |x'.answers| == |x.answers| + 1
      && var answer := x'.answers[|x.answers|];
         && (answer == GoOn <==> x.errVal == None)
         && (answer.Fatal? <==>
               x.errVal.Some?
               && (x.fsm == Exited || (x.fsm == HalfExit && (x.closed || x.now - x.halfExitTime > 15_000_000_000))))
         && (answer.Fatal? ==> Some(answer.err) == x.errVal)
         && (x.errVal.Some? && x.fsm == NormalExit ==> x' == Return(x.(fsm := HalfExit, halfExitTime := x.now), HalfWay))
         && (x'.fsm == Exited <==> x.fsm == Exited || (x.errVal.Some? && x.fsm == HalfExit && x.closed))
  {}

  // ---------------------------------------------------------------- the invariant

  function Rank(fsm: ExitFsm): nat {
    match fsm
    case NormalExit => 0
    case HalfExit => 1
    case Exited => 2
  }

  /** The wait for the master's word is over. */
  predicate Expired(x: Exit) { x.now - x.halfExitTime > WAIT_FOR_MASTER }

  predicate HadFatal(x: Exit) {
    exists i :: 0 <= i < |x.answers| && x.answers[i].Fatal?
  }

  function PollError(x: Exit): Option<Failure> {
    match x.poll
    case HasError(err) => Some(err)
    case HasState(err, _) => Some(err)
    case NotClosed(err) => Some(err)
    case FoundClosed(err) => Some(err)
    case _ => None
  }

  predicate Inv(x: Exit) {
    && x.errVal == (if |x.received| == 0 then None else Some(x.received[0]))
    && x.closes == (if |x.received| == 0 then 0 else 1)
    && (PollError(x).Some? || x.poll.Swapped? || x.fsm != NormalExit || x.forcing > 0 ==> x.errVal.Some?)
    && (PollError(x).Some? ==> PollError(x) == x.errVal)
    && (x.poll.HasState? ==> Rank(x.poll.fsm) <= Rank(x.fsm))
    && (x.poll.NotClosed? || x.poll.FoundClosed? || x.poll.Swapped? ==> x.fsm != NormalExit)
    && (forall i :: 0 <= i < |x.answers| && x.answers[i].Fatal? ==> Some(x.answers[i].err) == x.errVal)
    && (HadFatal(x) ==> (x.fsm == Exited || (x.fsm == HalfExit && Expired(x))) && PollPastFatal(x))
  }

  /** A poll begun after a fatal answer is on its way to another one. */
  predicate PollPastFatal(x: Exit) {
    match x.poll
    case HasState(_, fsm) => fsm == Exited || (fsm == HalfExit && Expired(x))
    case Swapped => false
    case NotClosed(_) => Expired(x)
    case _ => true
  }

  /** What the polling goroutine does. */
  predicate OfPoll(a: Act) {
    a.CheckError? || a.LoadState? || a.Decide? || a.StoreTime? || a.CompareTime? || a.StoreExit?
  }

  lemma OthersKeep(x: Exit, a: Act)
    requires Inv(x) && Enabled(x, a) && !OfPoll(a)
    ensures Inv(Do(x, a))
  {}

  lemma PollKeeps(x: Exit, a: Act)
    requires Inv(x) && Enabled(x, a) && OfPoll(a)
    ensures Inv(Do(x, a))
  {
    AnswerKept(x, a);
    var x' := Do(x, a);
    if !HadFatal(x) && HadFatal(x') {
      var i :| 0 <= i < |x'.answers| && x'.answers[i].Fatal?;
      assert i == |x.answers|;
    }
  }

  lemma DoKeeps(x: Exit, a: Act)
    requires Inv(x) && Enabled(x, a)
    ensures Inv(Do(x, a))
  {
    if OfPoll(a) { PollKeeps(x, a); } else { OthersKeep(x, a); }
  }

  /** Answers are only added, and after a fatal one only the same is added. */
  lemma AnswerKept(x: Exit, a: Act)
    requires Inv(x) && Enabled(x, a)
    ensures |x.answers| <= |Do(x, a).answers| <= |x.answers| + 1
    ensures forall i :: 0 <= i < |x.answers| ==> Do(x, a).answers[i] == x.answers[i]
    ensures HadFatal(x) ==> HadFatal(Do(x, a))
    ensures HadFatal(x) && |Do(x, a).answers| > |x.answers| ==> Do(x, a).answers[|x.answers|] == Fatal(x.received[0])
  {
    if HadFatal(x) {
      var i :| 0 <= i < |x.answers| && x.answers[i].Fatal?;
      assert Do(x, a).answers[i].Fatal?;
    }
  }

  // ---------------------------------------------------------------- every run

  datatype Trace = NoActs | Then(before: Trace, act: Act)

  predicate Possible(now: Time, t: Trace)
    decreases t, 0
  {
    t.Then? ==> Possible(now, t.before) && Enabled(After(now, t.before), t.act)
  }

  function After(now: Time, t: Trace): Exit
    requires Possible(now, t)
    decreases t, 1
  {
    match t
    case NoActs => Start(now)
    case Then(before, a) => Do(After(now, before), a)
  }

  lemma {:induction false} RunKeeps(now: Time, t: Trace)
    requires Possible(now, t)
    ensures Inv(After(now, t))
    decreases t
  {
    if t.Then? {
      RunKeeps(now, t.before);
      DoKeeps(After(now, t.before), t.act);
    }
  }

  /** In every run a fatal answer carries the first error reported, and every later answer is the same. */
  lemma {:induction false} FatalIsForever(now: Time, t: Trace, i: nat, j: nat)
    requires Possible(now, t)
    requires i <= j < |After(now, t).answers| && After(now, t).answers[i].Fatal?
    ensures |After(now, t).received| > 0
    ensures After(now, t).answers[i] == After(now, t).answers[j] == Fatal(After(now, t).received[0])
    decreases t
  {
    RunKeeps(now, t);
    var x := After(now, t);
    assert Some(x.answers[i].err) == x.errVal;
    if t.Then? && i < j {
      var p := After(now, t.before);
      RunKeeps(now, t.before);
      AnswerKept(p, t.act);
      assert i < |p.answers| && x.answers[i] == p.answers[i] && HadFatal(p);
      assert p.received[0] == x.received[0];
      if j < |p.answers| { FatalIsForever(now, t.before, i, j); }
    }
  }

  predicate Prefix(t: Trace, longer: Trace) {
    t == longer || (longer.Then? && Prefix(t, longer.before))
  }

  lemma StepForward(x: Exit, a: Act)
    requires Inv(x) && Enabled(x, a)
    ensures Rank(x.fsm) <= Rank(Do(x, a).fsm)
  {}

  /** In every run the exit state only moves from normal to half-exit to exited. */
  lemma {:induction false} StateMovesForward(now: Time, t: Trace, longer: Trace)
    requires Possible(now, t) && Possible(now, longer) && Prefix(t, longer)
    ensures Rank(After(now, t).fsm) <= Rank(After(now, longer).fsm)
    decreases longer
  {
    if t != longer {
      StateMovesForward(now, t, longer.before);
      RunKeeps(now, longer.before);
      StepForward(After(now, longer.before), longer.act);
    }
  }

  lemma {:induction false} DoneClosedOnce(now: Time, t: Trace)
    requires Possible(now, t)
    ensures var x := After(now, t);
      && x.closes <= 1 && (x.closes == 1 <==> x.errVal.Some?)
      && (x.errVal.Some? <==> |x.received| > 0) && (x.errVal.Some? ==> x.errVal.value == x.received[0])
  {
    RunKeeps(now, t);
  }
}
