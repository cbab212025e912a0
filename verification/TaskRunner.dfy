/**
 The executor's task runner: the loop that launches tasks, one goroutine per task, and cancelAll, in
 every interleaving. Permits bound how many tasks initialize at once.
 */
module TaskRunner {
  datatype TaskID = TaskID(name: string)

  /** A task goroutine: it initializes, holding a permit, loops, closes, leaves the registry and then the count. */
  datatype Phase = Initializing | Looping | Closing | Left | Gone

  datatype Task = Task(id: TaskID, phase: Phase)

  /** The launching loop between acquiring a permit and handing it on. */
  datatype Launcher = Waiting | Acquired(id: TaskID)

  /**
   `tasks` is the registry, `goroutines` every task ever launched, `cancelled` those whose context is
   cancelled. `locked` says that cancelMu is held for good. `acquired` and `released` count permits;
   `taskCount` is the counter of the source.
   */
  datatype Runner = Runner(
    capacity: nat, free: nat, tasks: map<TaskID, nat>, goroutines: seq<Task>, launcher: Launcher,
    canceled: bool, locked: bool, cancelled: set<nat>, taskCount: int, acquired: nat, released: nat)

  datatype Act =
    | Acquire(id: TaskID)
    | LaunchFails
    | Register
    | InitEnds(ref: nat, ok: bool)
    | LoopEnds(ref: nat)
    | Leave(ref: nat)
    | CountDown(ref: nat)
    | CancelAll

  datatype Effect = Fine(r: Runner) | TaskMissing

  function NewRunner(capacity: nat): Runner {
    Runner(capacity, capacity, map[], [], Waiting, false, false, {}, 0, 0, 0)
  }

  predicate InPhase(r: Runner, ref: nat, phase: Phase) {
    ref < |r.goroutines| && r.goroutines[ref].phase == phase
  }

  predicate Enabled(r: Runner, a: Act) {
    match a
    case Acquire(_) => r.launcher.Waiting? && r.free > 0
    case LaunchFails => r.launcher.Acquired?
    case Register => r.launcher.Acquired? && !r.locked
    case InitEnds(ref, _) => InPhase(r, ref, Initializing)
    case LoopEnds(ref) => InPhase(r, ref, Looping)
    case Leave(ref) => InPhase(r, ref, Closing)
    case CountDown(ref) => InPhase(r, ref, Left)
    case CancelAll => !r.locked
  }

  function Release(r: Runner): Runner {
    r.(free := r.free + 1, released := r.released + 1)
  }

  function Move(r: Runner, ref: nat, phase: Phase): Runner
    requires ref < |r.goroutines|
  {
    r.(goroutines := r.goroutines[ref := r.goroutines[ref].(phase := phase)])
  }

  /** The registration in onNewTask, under the read lock; a refusal gives the permit back. */
  function Registered(r: Runner): Runner
    requires r.launcher.Acquired?
  {
    var id := r.launcher.id;
    if r.canceled || id in r.tasks then Release(r).(launcher := Waiting)
    else r.(launcher := Waiting, tasks := r.tasks[id := |r.goroutines|],
            goroutines := r.goroutines + [Task(id, Initializing)], taskCount := r.taskCount + 1)
  }

  function Do(r: Runner, a: Act): Effect
    requires Enabled(r, a)
  {
    match a
    case Acquire(id) => Fine(r.(launcher := Acquired(id), free := r.free - 1, acquired := r.acquired + 1))
    case LaunchFails => Fine(Release(r).(launcher := Waiting))
    case Register => Fine(Registered(r))
    case InitEnds(ref, ok) => Fine(Move(Release(r), ref, if ok then Looping else Closing))
    case LoopEnds(ref) => Fine(Move(r, ref, Closing))
    case Leave(ref) =>
      if r.goroutines[ref].id !in r.tasks then TaskMissing
      else Fine(Move(r, ref, Left).(tasks := r.tasks - {r.goroutines[ref].id}))
    case CountDown(ref) => Fine(Move(r, ref, Gone).(taskCount := r.taskCount - 1))
    case CancelAll =>
      if r.canceled then Fine(r.(locked := true))
      else Fine(r.(canceled := true, cancelled := r.cancelled + r.tasks.Values))
  }

  // ---------------------------------------------------------------- the invariant

  /** The tasks that hold a permit, and those still counted. */
  function Holders(r: Runner): set<nat> { HoldersOf(r.goroutines) }

  function Live(r: Runner): set<nat> { LiveOf(r.goroutines) }

  function HoldersOf(gs: seq<Task>): set<nat> {
    set ref | 0 <= ref < |gs| && gs[ref].phase == Initializing
  }

  function LiveOf(gs: seq<Task>): set<nat> {
    set ref | 0 <= ref < |gs| && gs[ref].phase != Gone
  }

  /** A goroutine that has not left is the entry of its own ID. */
  predicate OwnEntry(r: Runner, ref: nat)
    requires ref < |r.goroutines|
  {
    var t := r.goroutines[ref];
    t.phase != Gone && t.phase != Left ==>
      t.id in r.tasks && r.tasks[t.id] == ref && (r.canceled ==> ref in r.cancelled)
  }

  predicate Entry(r: Runner, id: TaskID) {
    id in r.tasks ==>
      && r.tasks[id] < |r.goroutines|
      && var t := r.goroutines[r.tasks[id]]; t.id == id && t.phase != Gone && t.phase != Left
  }

  ghost predicate Inv(r: Runner) {
    && r.free + |Holders(r)| + (if r.launcher.Acquired? then 1 else 0) == r.capacity
    && r.acquired == r.released + |Holders(r)| + (if r.launcher.Acquired? then 1 else 0)
    && r.taskCount == |Live(r)|
    && (forall ref: nat :: ref < |r.goroutines| ==> OwnEntry(r, ref))
    && (forall id :: Entry(r, id))
  }

  lemma NewRunnerInv(capacity: nat)
    ensures Inv(NewRunner(capacity))
  {
    assert HoldersOf([]) == {} && LiveOf([]) == {};
  }

  // ---------------------------------------------------------------- every step keeps it

  lemma HolderMore(gs: seq<Task>, t: Task)
    requires t.phase == Initializing
    ensures |HoldersOf(gs + [t])| == |HoldersOf(gs)| + 1
  {
    var all := gs + [t];
    assert all[|gs|] == t && forall i :: 0 <= i < |gs| ==> all[i] == gs[i];
    assert HoldersOf(all) == HoldersOf(gs) + {|gs|};
  }

  lemma LiveMore(gs: seq<Task>, t: Task)
    requires t.phase == Initializing
    ensures |LiveOf(gs + [t])| == |LiveOf(gs)| + 1
  {
    var all := gs + [t];
    assert all[|gs|] == t && forall i :: 0 <= i < |gs| ==> all[i] == gs[i];
    assert LiveOf(all) == LiveOf(gs) + {|gs|};
  }

  lemma OneLess(gs: seq<Task>, ref: nat, phase: Phase)
    requires ref < |gs| && gs[ref].phase != Gone && phase != Initializing
    ensures var gs' := gs[ref := gs[ref].(phase := phase)];
      && |HoldersOf(gs)| == |HoldersOf(gs')| + (if gs[ref].phase == Initializing then 1 else 0)
      && |LiveOf(gs)| == |LiveOf(gs')| + (if phase == Gone then 1 else 0)
  {
    var gs' := gs[ref := gs[ref].(phase := phase)];
    assert HoldersOf(gs') == HoldersOf(gs) - {ref};
    assert LiveOf(gs') == if phase == Gone then LiveOf(gs) - {ref} else LiveOf(gs);
    assert ref in LiveOf(gs);
  }

  lemma RefusedKeeps(r: Runner)
    requires Inv(r) && r.launcher.Acquired?
    ensures Inv(Release(r).(launcher := Waiting))
  {
    var r' := Release(r).(launcher := Waiting);
    forall ref: nat | ref < |r'.goroutines| ensures OwnEntry(r', ref) { assert OwnEntry(r, ref); }
    forall id ensures Entry(r', id) { assert Entry(r, id); }
  }

  lemma RegisterKeeps(r: Runner)
    requires Inv(r) && r.launcher.Acquired?
    ensures Inv(Registered(r))
  {
    var id := r.launcher.id;
    if r.canceled || id in r.tasks {
      RefusedKeeps(r);
    } else {
      var r' := Registered(r);
      HolderMore(r.goroutines, Task(id, Initializing));
      LiveMore(r.goroutines, Task(id, Initializing));
      forall ref: nat | ref < |r'.goroutines| ensures OwnEntry(r', ref) {
        if ref < |r.goroutines| { assert OwnEntry(r, ref); }
      }
      forall other ensures Entry(r', other) { assert Entry(r, other); }
    }
  }

  lemma InitEndsKeeps(r: Runner, ref: nat, ok: bool)
    requires Inv(r) && InPhase(r, ref, Initializing)
    ensures Inv(Move(Release(r), ref, if ok then Looping else Closing))
  {
    var r' := Move(Release(r), ref, if ok then Looping else Closing);
    OneLess(r.goroutines, ref, if ok then Looping else Closing);
    forall other: nat | other < |r'.goroutines| ensures OwnEntry(r', other) { assert OwnEntry(r, other); }
    forall id ensures Entry(r', id) { assert Entry(r, id); }
  }

  lemma LoopEndsKeeps(r: Runner, ref: nat)
    requires Inv(r) && InPhase(r, ref, Looping)
    ensures Inv(Move(r, ref, Closing))
  {
    var r' := Move(r, ref, Closing);
    OneLess(r.goroutines, ref, Closing);
    forall other: nat | other < |r'.goroutines| ensures OwnEntry(r', other) { assert OwnEntry(r, other); }
    forall id ensures Entry(r', id) { assert Entry(r, id); }
  }

  /** A goroutine that leaves finds its entry, and takes no other with it. */
  lemma LeaveKeeps(r: Runner, ref: nat)
    requires Inv(r) && InPhase(r, ref, Closing)
    ensures Do(r, Leave(ref)).Fine? && Inv(Do(r, Leave(ref)).r)
  {
    assert OwnEntry(r, ref);
    var r' := Do(r, Leave(ref)).r;
    OneLess(r.goroutines, ref, Left);
    forall other: nat | other < |r'.goroutines| ensures OwnEntry(r', other) { assert OwnEntry(r, other); }
    forall id ensures Entry(r', id) { assert Entry(r, id); }
  }

  lemma CountDownKeeps(r: Runner, ref: nat)
    requires Inv(r) && InPhase(r, ref, Left)
    ensures Inv(Do(r, CountDown(ref)).r)
  {
    var r' := Do(r, CountDown(ref)).r;
    OneLess(r.goroutines, ref, Gone);
    forall other: nat | other < |r'.goroutines| ensures OwnEntry(r', other) { assert OwnEntry(r, other); }
    forall id ensures Entry(r', id) { assert Entry(r, id); }
  }

  lemma PlainKeeps(r: Runner, a: Act)
    requires Inv(r) && Enabled(r, a) && (a.Acquire? || a.LaunchFails? || a.CancelAll?)
    ensures Do(r, a).Fine? && Inv(Do(r, a).r)
  {
    var r' := Do(r, a).r;
    forall ref: nat | ref < |r'.goroutines| ensures OwnEntry(r', ref) {
      assert OwnEntry(r, ref);
      var t := r.goroutines[ref];
      assert t.phase != Gone && t.phase != Left ==> r.tasks[t.id] in r.tasks.Values;
    }
    forall id ensures Entry(r', id) { assert Entry(r, id); }
  }

  lemma StepKeeps(r: Runner, a: Act)
    requires Inv(r) && Enabled(r, a)
    ensures Do(r, a).Fine? && Inv(Do(r, a).r)
  {
    match a
    case Register => RegisterKeeps(r);
    case InitEnds(ref, ok) => InitEndsKeeps(r, ref, ok);
    case LoopEnds(ref) => LoopEndsKeeps(r, ref);
    case Leave(ref) => LeaveKeeps(r, ref);
    case CountDown(ref) => CountDownKeeps(r, ref);
    case _ => PlainKeeps(r, a);
  }

  // ---------------------------------------------------------------- every run

  datatype Run = Begin(capacity: nat) | Later(before: Run, act: Act, runner: Runner)

  function Last(run: Run): Runner {
    if run.Begin? then NewRunner(run.capacity) else run.runner
  }

  predicate IsRun(run: Run) {
    run.Later? ==>
      IsRun(run.before) && Enabled(Last(run.before), run.act) && Do(Last(run.before), run.act) == Fine(run.runner)
  }

  lemma {:induction false} RunKeeps(run: Run)
    requires IsRun(run)
    ensures Inv(Last(run))
    decreases run
  {
    match run
    case Begin(capacity) => NewRunnerInv(capacity);
    case Later(before, a, _) =>
      RunKeeps(before);
      StepKeeps(Last(before), a);
  }

  /** In every run no goroutine misses its registry entry when it leaves. */
  lemma {:induction false} NeverMissing(run: Run, a: Act)
    requires IsRun(run) && Enabled(Last(run), a)
    ensures Do(Last(run), a).Fine?
  {
    RunKeeps(run);
    StepKeeps(Last(run), a);
  }

  /** In every run the permits not free are held by the launcher or by a task that initializes, one each. */
  lemma {:induction false} PermitsConserved(run: Run)
    requires IsRun(run)
    ensures var r := Last(run);
      var held := |Holders(r)| + (if r.launcher.Acquired? then 1 else 0);
      r.free + held == r.capacity && r.acquired == r.released + held && r.taskCount == |Live(r)|
  {
    RunKeeps(run);
  }

  /** Once cancelAll has been through, every registered task is cancelled. */
  lemma {:induction false} CancelledForGood(run: Run, id: TaskID)
    requires IsRun(run) && Last(run).canceled && id in Last(run).tasks
    ensures Last(run).tasks[id] in Last(run).cancelled
  {
    RunKeeps(run);
    var r := Last(run);
    assert Entry(r, id);
    assert OwnEntry(r, r.tasks[id]);
  }

  /** From then on no task is registered. */
  lemma {:induction false} NoRegistrationAfterCancel(run: Run, a: Act)
    requires IsRun(run) && Last(run).canceled && Enabled(Last(run), a)
    ensures var r := Last(run);
      Do(r, a).Fine? && Do(r, a).r.canceled && Do(r, a).r.tasks.Keys <= r.tasks.Keys
  {
    NeverMissing(run, a);
  }

  /** How the initialization of a task ended, if it has, and whether its loop has ended. */
  predicate InitEnded(run: Run, ref: nat, ok: bool) {
    run.Later? && (run.act == InitEnds(ref, ok) || InitEnded(run.before, ref, ok))
  }

  predicate LoopEnded(run: Run, ref: nat) {
    run.Later? && (run.act == LoopEnds(ref) || LoopEnded(run.before, ref))
  }

  /** The phase of a task, by what has happened to it. */
  predicate PhaseFits(r: Runner, ref: nat, ok: bool, failed: bool, ended: bool) {
    && (InPhase(r, ref, Looping) <==> ok && !ended)
    && (InPhase(r, ref, Initializing) <==> ref < |r.goroutines| && !ok && !failed)
    && (ok || failed || ended ==> ref < |r.goroutines|) && !(ok && failed) && (ended ==> ok)
  }

  lemma PhaseFitsStep(r: Runner, a: Act, ref: nat, ok: bool, failed: bool, ended: bool)
    requires PhaseFits(r, ref, ok, failed, ended) && Enabled(r, a) && Do(r, a).Fine?
    ensures PhaseFits(Do(r, a).r, ref, ok || a == InitEnds(ref, true), failed || a == InitEnds(ref, false),
                      ended || a == LoopEnds(ref))
  {}

  lemma {:induction false} PhaseFitsRun(run: Run, ref: nat)
    requires IsRun(run)
    ensures PhaseFits(Last(run), ref, InitEnded(run, ref, true), InitEnded(run, ref, false), LoopEnded(run, ref))
    decreases run
  {
    if run.Later? {
      var b := run.before;
      PhaseFitsRun(b, ref);
      PhaseFitsStep(Last(b), run.act, ref, InitEnded(b, ref, true), InitEnded(b, ref, false), LoopEnded(b, ref));
    }
  }

  /**
   In every run a task loops iff its initialization has succeeded and its loop has not ended; one whose
   initialization fails never loops.
   */
  lemma {:induction false} LoopsIff(run: Run, ref: nat)
    requires IsRun(run)
    ensures InPhase(Last(run), ref, Looping) <==> InitEnded(run, ref, true) && !LoopEnded(run, ref)
    ensures InitEnded(run, ref, false) ==> !InitEnded(run, ref, true) && !LoopEnded(run, ref)
  {
    PhaseFitsRun(run, ref);
  }

  function Cancels(run: Run): nat {
    if run.Begin? then 0 else Cancels(run.before) + (if run.act.CancelAll? then 1 else 0)
  }

  /**
   The exact condition on cancelMu: it stays held iff cancelAll was entered twice. Until then a task
   that has its permit can go on to the registry, from then on never; a third cancelAll does not get in.
   */
  lemma {:induction false} LockedIffTwice(run: Run)
    requires IsRun(run)
    ensures Last(run).canceled <==> Cancels(run) >= 1
    ensures Last(run).locked <==> Cancels(run) >= 2
    ensures Cancels(run) <= 2
    ensures Last(run).launcher.Acquired? ==> (Enabled(Last(run), Register) <==> Cancels(run) < 2)
    decreases run
  {
    if run.Later? { LockedIffTwice(run.before); }
  }

  /** In particular a runner whose launcher has a permit can get there. */
  lemma CancelledTwice(capacity: nat, id: TaskID) returns (run: Run)
    requires capacity > 0
    ensures IsRun(run) && Cancels(run) == 2 && Last(run).locked && Last(run).launcher == Acquired(id)
  {
    run := Begin(capacity);
    run := OneMore(run, Acquire(id));
    run := OneMore(run, CancelAll);
    run := OneMore(run, CancelAll);
  }

  lemma OneMore(run: Run, a: Act) returns (run': Run)
    requires IsRun(run) && Enabled(Last(run), a) && Do(Last(run), a).Fine?
    ensures IsRun(run') && run' == Later(run, a, Do(Last(run), a).r)
    ensures Cancels(run') == Cancels(run) + (if a.CancelAll? then 1 else 0)
  {
    run' := Later(run, a, Do(Last(run), a).r);
  }

  /** Once cancelMu is held for good, it stays so, and no task is registered or refused. */
  lemma {:induction false} LockedForGood(run: Run, a: Act)
    requires IsRun(run) && Last(run).locked && Enabled(Last(run), a)
    ensures Do(Last(run), a).Fine? && Do(Last(run), a).r.locked && !Enabled(Do(Last(run), a).r, Register)
  {
    NeverMissing(run, a);
  }
}
