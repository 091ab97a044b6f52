/**
 * Admission, spawning and shutdown of run tasks (crates/morons-server/src/run_supervisor.rs), as
 * atomic steps of concurrent request handlers, run tasks and one shutdown.
 */
module RunSupervisor {
  const MAX_CONCURRENT_RUNS := 4

  /** A request that reserves a permit and starts a run with it. */
  datatype Request =
    | Asked                  // found the supervisor not stopping, about to take a permit
    | Reserved               // holds a permit
    | Starting(run: nat)     // holds the permit and the lock
    | Admitted(run: nat)     // under the lock, found the run new and the supervisor not stopping
    | Gone

  datatype Phase = Executing | RemovingControl | Leaving | Finished

  datatype Task = Task(run: nat, phase: Phase, cancelled: bool)

  datatype Shutdown = Running | StopSet | MaintenanceStopped | HoldsLock | Waiting | Aborting | Joined | Returned

  datatype Lock = Free | ByRequest(id: nat) | ByShutdown

  /** `set` holds the tasks of the current join set; `swapped` those shutdown took over. */
  datatype State = State(
    stopping: bool, permits: int, lock: Lock,
    requests: map<nat, Request>,
    tasks: map<nat, Task>,
    controls: map<nat, bool>,
    swapped: set<nat>,
    shutdown: Shutdown)

  const INITIAL := State(false, MAX_CONCURRENT_RUNS, Free, map[], map[], map[], {}, Running)

  datatype Step =
    | Ask(r: nat)
    | Reserve(r: nat)
    | Abandon(r: nat)
    | StartLock(r: nat, run: nat)
    | StartCheck(r: nat)
    | StartSpawn(r: nat, t: nat)
    | ExitRun(t: nat, persistenceFailed: bool)
    | RemoveControl(t: nat)
    | Finish(t: nat)
    | Signal(run: nat)
    | Fatal
    | ShutdownStop
    | ShutdownMaintenance
    | ShutdownLock
    | ShutdownSwap
    | ShutdownTimeout
    | Abort(t: nat)
    | ShutdownJoin
    | ShutdownClear

  function Rank(p: Shutdown): nat
  {
    match p
    case Running => 0 case StopSet => 1 case MaintenanceStopped => 2 case HoldsLock => 3
    case Waiting => 4 case Aborting => 5 case Joined => 6 case Returned => 7
  }

  function Cancel(t: Task): Task
  {
    t.(cancelled := true)
  }

  /** Cancelling every handle reaches every task whose run still has a handle. */
  function CancelAll(s: State): map<nat, Task>
  {
    map t | t in s.tasks :: if s.tasks[t].run in s.controls && s.tasks[t].phase.Executing? then Cancel(s.tasks[t]) else s.tasks[t]
  }

  predicate Enabled(s: State, step: Step)
  {
    match step
    case Ask(r) => r !in s.requests && !s.stopping
    case Reserve(r) => r in s.requests && s.requests[r].Asked?
    case Abandon(r) => r in s.requests && s.requests[r].Reserved?
    case StartLock(r, run) => r in s.requests && s.requests[r].Reserved? && s.lock.Free?
    case StartCheck(r) => r in s.requests && s.requests[r].Starting?
    case StartSpawn(r, t) => r in s.requests && s.requests[r].Admitted? && t !in s.tasks
    case ExitRun(t, _) => t in s.tasks && s.tasks[t].phase.Executing?
    case RemoveControl(t) => t in s.tasks && s.tasks[t].phase.RemovingControl? && s.lock.Free?
    case Finish(t) => t in s.tasks && s.tasks[t].phase.Leaving?
    case Signal(run) => s.lock.Free? && run in s.controls
    case Fatal => true
    case ShutdownStop => s.shutdown.Running?
    case ShutdownMaintenance => s.shutdown.StopSet?
    case ShutdownLock => s.shutdown.MaintenanceStopped? && s.lock.Free?
    case ShutdownSwap => s.shutdown.HoldsLock?
    case ShutdownTimeout => s.shutdown.Waiting?
    case Abort(t) => s.shutdown.Aborting? && t in s.swapped && t in s.tasks && !s.tasks[t].phase.Finished?
    case ShutdownJoin =>
      (s.shutdown.Waiting? || s.shutdown.Aborting?) && forall t :: t in s.swapped && t in s.tasks ==> s.tasks[t].phase.Finished?
    case ShutdownClear => s.shutdown.Joined? && s.lock.Free?
  }

  function Perform(s: State, step: Step): State
    requires Enabled(s, step)
  {
    match step
    case Ask(r) => s.(requests := s.requests[r := Asked])
    case Reserve(r) =>
      if s.permits > 0 then s.(requests := s.requests[r := Reserved], permits := s.permits - 1)
      else s.(requests := s.requests[r := Gone])
    case Abandon(r) => s.(requests := s.requests[r := Gone], permits := s.permits + 1)
    case StartLock(r, run) => s.(requests := s.requests[r := Starting(run)], lock := ByRequest(r))
    case StartCheck(r) =>
      var run := s.requests[r].run;
      if run in s.controls || s.stopping then
        s.(requests := s.requests[r := Gone], lock := Free, permits := s.permits + 1)
      else s.(requests := s.requests[r := Admitted(run)])
    case StartSpawn(r, t) =>
      var run := s.requests[r].run;
      s.(requests := s.requests[r := Gone], lock := Free,
         controls := s.controls[run := false], tasks := s.tasks[t := Task(run, Executing, false)])
    case ExitRun(t, persistenceFailed) =>
      s.(tasks := s.tasks[t := s.tasks[t].(phase := RemovingControl)], stopping := s.stopping || persistenceFailed)
    case RemoveControl(t) =>
      s.(tasks := s.tasks[t := s.tasks[t].(phase := Leaving)], controls := s.controls - {s.tasks[t].run})
    case Finish(t) => s.(tasks := s.tasks[t := s.tasks[t].(phase := Finished)], permits := s.permits + 1)
    case Signal(run) =>
      s.(controls := s.controls[run := true],
         tasks := map t | t in s.tasks ::
           if s.tasks[t].run == run && s.tasks[t].phase.Executing? then Cancel(s.tasks[t]) else s.tasks[t])
    case Fatal => s.(stopping := true)
    case ShutdownStop => s.(stopping := true, shutdown := StopSet)
    case ShutdownMaintenance => s.(shutdown := MaintenanceStopped)
    case ShutdownLock => s.(lock := ByShutdown, shutdown := HoldsLock)
    case ShutdownSwap =>
      s.(tasks := CancelAll(s), controls := map run | run in s.controls :: true,
         swapped := s.tasks.Keys, lock := Free, shutdown := Waiting)
    case ShutdownTimeout => s.(shutdown := Aborting)
    case Abort(t) => s.(tasks := s.tasks[t := s.tasks[t].(phase := Finished)], permits := s.permits + 1)
    case ShutdownJoin => s.(shutdown := Joined)
    case ShutdownClear => s.(controls := map[], shutdown := Returned)
  }

  function Apply(s: State, step: Step): State
  {
    if Enabled(s, step) then Perform(s, step) else s
  }

  function Run(s: State, steps: seq<Step>): State
    decreases |steps|
  {
    if steps == [] then s else Run(Apply(s, steps[0]), steps[1..])
  }

  // ----- the invariant -----

  predicate HoldsPermit(q: Request)
  {
    q.Reserved? || q.Starting? || q.Admitted?
  }

  function Holders(s: State): set<nat>
  {
    set r | r in s.requests && HoldsPermit(s.requests[r])
  }

  /** The tasks that have not released their permit: every task still doing anything. */
  function Busy(s: State): set<nat>
  {
    set t | t in s.tasks && !s.tasks[t].phase.Finished?
  }

  predicate PermitsConserved(s: State)
  {
    s.permits >= 0 && s.permits + |Holders(s)| + |Busy(s)| == MAX_CONCURRENT_RUNS
  }

  ghost predicate LockConsistent(s: State)
  {
    && (forall r :: r in s.requests && (s.requests[r].Starting? || s.requests[r].Admitted?) ==> s.lock == ByRequest(r))
    && (s.lock.ByShutdown? <==> s.shutdown.HoldsLock?)
    && (Rank(s.shutdown) >= 1 ==> s.stopping)
    // Whoever was admitted before the stop flag still holds the lock, so the swap waits for it.
    && (forall r :: r in s.requests && s.requests[r].Admitted? ==>
          Rank(s.shutdown) <= 2 && s.requests[r].run !in s.controls)
  }

  /** A task before it has removed its cancellation handle. */
  predicate HasHandle(t: Task)
  {
    t.phase.Executing? || t.phase.RemovingControl?
  }

  ghost predicate HandlesConsistent(s: State)
  {
    && (forall t :: t in s.tasks && HasHandle(s.tasks[t]) && !s.shutdown.Returned? ==> s.tasks[t].run in s.controls)
    && (forall t, u :: t in s.tasks && u in s.tasks && HasHandle(s.tasks[t]) && HasHandle(s.tasks[u]) && t != u ==>
          s.tasks[t].run != s.tasks[u].run)
  }

  ghost predicate CancellationConsistent(s: State)
  {
    forall t :: t in s.tasks && s.tasks[t].phase.Executing? && s.tasks[t].run in s.controls ==>
      s.controls[s.tasks[t].run] == s.tasks[t].cancelled
  }

  ghost predicate ShutdownConsistent(s: State)
  {
    && (Rank(s.shutdown) >= 4 ==> forall t :: t in s.tasks ==> t in s.swapped)
    && (Rank(s.shutdown) >= 4 ==> forall t :: t in s.tasks && s.tasks[t].phase.Executing? ==> s.tasks[t].cancelled)
    && (Rank(s.shutdown) >= 6 ==> forall t :: t in s.tasks ==> s.tasks[t].phase.Finished?)
  }

  ghost predicate Inv(s: State)
  {
    && PermitsConserved(s) && LockConsistent(s) && HandlesConsistent(s)
    && CancellationConsistent(s) && ShutdownConsistent(s)
  }

  // ----- every step keeps it -----

  function Units(b: bool): nat
  {
    if b then 1 else 0
  }

  lemma {:induction false} Cardinalities(a: set<nat>, x: nat)
    ensures |a + {x}| == |a| + 1 - Units(x in a)
    ensures |a - {x}| == |a| - Units(x in a)
  {
    if x in a { assert a + {x} == a; } else { assert a - {x} == a; }
  }

  lemma {:induction false} OneRequestMoves(s: State, next: State, r: nat, q: Request)
    requires next.requests == s.requests[r := q] && next.tasks == s.tasks
    ensures Busy(next) == Busy(s)
    ensures |Holders(next)| == |Holders(s)| + Units(HoldsPermit(q)) - Units(r in s.requests && HoldsPermit(s.requests[r]))
  {
    assert Holders(next) == if HoldsPermit(q) then Holders(s) + {r} else Holders(s) - {r};
    Cardinalities(Holders(s), r);
  }

  lemma {:induction false} OneTaskMoves(s: State, next: State, t: nat, task: Task)
    requires next.tasks == s.tasks[t := task] && next.requests == s.requests
    ensures Holders(next) == Holders(s)
    ensures |Busy(next)| == |Busy(s)| + Units(!task.phase.Finished?) - Units(t in s.tasks && !s.tasks[t].phase.Finished?)
  {
    assert Busy(next) == if task.phase.Finished? then Busy(s) - {t} else Busy(s) + {t};
    Cardinalities(Busy(s), t);
  }

  lemma {:induction false} OnlyMarksChange(s: State, next: State)
    requires next.requests == s.requests && next.tasks.Keys == s.tasks.Keys
    requires forall t :: t in s.tasks ==> next.tasks[t].phase == s.tasks[t].phase
    ensures Holders(next) == Holders(s) && Busy(next) == Busy(s)
  {
  }

  lemma {:induction false} CancelAllKeepsPhases(s: State)
    ensures CancelAll(s).Keys == s.tasks.Keys
    ensures forall t :: t in s.tasks ==>
              CancelAll(s)[t].phase == s.tasks[t].phase && CancelAll(s)[t].run == s.tasks[t].run
  {
  }

  predicate OfRequest(step: Step)
  {
    step.Ask? || step.Reserve? || step.Abandon? || step.StartLock? || step.StartCheck? || step.StartSpawn?
  }

  lemma {:induction false} PermitsOfRequests(s: State, step: Step)
    requires PermitsConserved(s) && Enabled(s, step) && OfRequest(step)
    ensures PermitsConserved(Perform(s, step))
  {
    hide Holders, Busy, CancelAll;
    var next := Perform(s, step);
    if step.StartSpawn? {
      var between := s.(requests := next.requests);
      OneRequestMoves(s, between, step.r, Gone);
      OneTaskMoves(between, next, step.t, next.tasks[step.t]);
    } else {
      OneRequestMoves(s, next, step.r, next.requests[step.r]);
    }
  }

  lemma {:induction false} PermitsOfTasks(s: State, step: Step)
    requires PermitsConserved(s) && Enabled(s, step) && !OfRequest(step)
    ensures PermitsConserved(Perform(s, step))
  {
    hide Holders, Busy, CancelAll;
    var next := Perform(s, step);
    match step
    case ExitRun(t, _) => OneTaskMoves(s, next, t, next.tasks[t]);
    case RemoveControl(t) => OneTaskMoves(s, next, t, next.tasks[t]);
    case Finish(t) => OneTaskMoves(s, next, t, next.tasks[t]);
    case Abort(t) => OneTaskMoves(s, next, t, next.tasks[t]);
    case _ =>
      CancelAllKeepsPhases(s);
      OnlyMarksChange(s, next);
  }

  lemma {:induction false} PermitsStep(s: State, step: Step)
    requires PermitsConserved(s) && Enabled(s, step)
    ensures PermitsConserved(Perform(s, step))
  {
    hide Enabled, Perform, PermitsConserved;
    if OfRequest(step) { PermitsOfRequests(s, step); } else { PermitsOfTasks(s, step); }
  }

  lemma {:induction false} LockStep(s: State, step: Step)
    requires LockConsistent(s) && Enabled(s, step)
    ensures LockConsistent(Perform(s, step))
  {
    hide PermitsConserved, HandlesConsistent, CancellationConsistent, ShutdownConsistent;
  }

  /** A handle may be given up by its task; nobody else's may be taken away. */
  lemma {:induction false} HandlesStay(s: State, next: State)
    requires HandlesConsistent(s) && next.tasks.Keys == s.tasks.Keys
    requires forall t :: t in s.tasks ==>
               next.tasks[t].run == s.tasks[t].run && (HasHandle(next.tasks[t]) ==> HasHandle(s.tasks[t]))
    requires next.shutdown.Returned? || (!s.shutdown.Returned? && s.controls.Keys <= next.controls.Keys)
    ensures HandlesConsistent(next)
  {
    hide HasHandle;
  }

  lemma {:induction false} HandlesSpawn(s: State, r: nat, t: nat)
    requires LockConsistent(s) && HandlesConsistent(s) && Enabled(s, StartSpawn(r, t))
    ensures HandlesConsistent(Perform(s, StartSpawn(r, t)))
  {
  }

  lemma {:induction false} HandlesRemove(s: State, t: nat)
    requires HandlesConsistent(s) && Enabled(s, RemoveControl(t))
    ensures HandlesConsistent(Perform(s, RemoveControl(t)))
  {
  }

  lemma {:induction false} HandlesStep(s: State, step: Step)
    requires LockConsistent(s) && HandlesConsistent(s) && Enabled(s, step)
    ensures HandlesConsistent(Perform(s, step))
  {
    hide LockConsistent, HandlesConsistent, CancelAll;
    if step.StartSpawn? {
      HandlesSpawn(s, step.r, step.t);
    } else if step.RemoveControl? {
      HandlesRemove(s, step.t);
    } else {
      CancelAllKeepsPhases(s);
      HandlesStay(s, Perform(s, step));
    }
  }

  lemma {:induction false} CancellationStep(s: State, step: Step)
    requires LockConsistent(s) && HandlesConsistent(s) && CancellationConsistent(s) && Enabled(s, step)
    ensures CancellationConsistent(Perform(s, step))
  {
    hide PermitsConserved, ShutdownConsistent;
  }

  lemma {:induction false} DrainStep(s: State, step: Step)
    requires LockConsistent(s) && HandlesConsistent(s) && ShutdownConsistent(s) && Enabled(s, step)
    ensures ShutdownConsistent(Perform(s, step))
  {
    hide PermitsConserved, CancellationConsistent;
  }

  lemma {:induction false} StepKeepsInv(s: State, step: Step)
    requires Inv(s)
    ensures Inv(Apply(s, step))
  {
    hide PermitsConserved, LockConsistent, HandlesConsistent, CancellationConsistent, ShutdownConsistent;
    hide Enabled, Perform;
    if Enabled(s, step) {
      PermitsStep(s, step);
      LockStep(s, step);
      HandlesStep(s, step);
      CancellationStep(s, step);
      DrainStep(s, step);
    }
  }

  lemma {:induction false} RunKeepsInv(s: State, steps: seq<Step>)
    requires Inv(s)
    ensures Inv(Run(s, steps))
    decreases |steps|
  {
    hide Inv, Apply;
    if steps != [] {
      StepKeepsInv(s, steps[0]);
      RunKeepsInv(Apply(s, steps[0]), steps[1..]);
    }
  }

  lemma {:induction false} InvInitially()
    ensures Inv(INITIAL)
  {
    assert Holders(INITIAL) == {} && Busy(INITIAL) == {};
  }

  // ----- what it means -----

  /** In every interleaving no more than four runs execute, and no permit is ever lost or minted. */
  lemma {:induction false} AtMostFourRuns(steps: seq<Step>)
    ensures var s := Run(INITIAL, steps);
            |Busy(s)| <= MAX_CONCURRENT_RUNS && s.permits == MAX_CONCURRENT_RUNS - |Holders(s)| - |Busy(s)| >= 0
  {
    InvInitially();
    RunKeepsInv(INITIAL, steps);
  }

  /** No step after the swap spawns a task. */
  lemma {:induction false} NoSpawnStep(s: State, step: Step)
    requires Inv(s) && Rank(s.shutdown) >= 4
    ensures Apply(s, step).tasks.Keys == s.tasks.Keys
    ensures Rank(Apply(s, step).shutdown) >= Rank(s.shutdown)
  {
    hide PermitsConserved, HandlesConsistent, CancellationConsistent, ShutdownConsistent;
  }

  lemma {:induction false} NoSpawnAfterSwap(s: State, steps: seq<Step>)
    requires Inv(s) && Rank(s.shutdown) >= 4
    ensures Run(s, steps).tasks.Keys == s.tasks.Keys
    ensures Rank(Run(s, steps).shutdown) >= Rank(s.shutdown)
    decreases |steps|
  {
    hide Inv, Apply;
    if steps != [] {
      StepKeepsInv(s, steps[0]);
      NoSpawnStep(s, steps[0]);
      NoSpawnAfterSwap(Apply(s, steps[0]), steps[1..]);
    }
  }

  /**
   * Shutdown is final: when it has returned, whatever happened before and whatever happens after,
   * no task is running, none is spawned, and every permit not held by a request is back.
   */
  lemma {:induction false} ShutdownIsFinal(before: seq<Step>, after: seq<Step>)
    requires Run(INITIAL, before).shutdown.Returned?
    ensures var s := Run(INITIAL, before);
            var later := Run(s, after);
            && Busy(s) == {} && Busy(later) == {}
            && later.tasks.Keys == s.tasks.Keys
            && later.permits + |Holders(later)| == MAX_CONCURRENT_RUNS
  {
    InvInitially();
    var s := Run(INITIAL, before);
    RunKeepsInv(INITIAL, before);
    RunKeepsInv(s, after);
    NoSpawnAfterSwap(s, after);
    var later := Run(s, after);
    assert Busy(s) == {};
    assert Busy(later) == {};
  }

  /** From the swap on, every task still inside its run has been told to stop. */
  lemma {:induction false} SwapReachesEveryExecution(before: seq<Step>, after: seq<Step>, t: nat)
    requires Enabled(Run(INITIAL, before), ShutdownSwap)
    requires var later := Run(Apply(Run(INITIAL, before), ShutdownSwap), after);
             t in later.tasks && later.tasks[t].phase.Executing?
    ensures t in Run(INITIAL, before).tasks && Run(INITIAL, before).tasks[t].run in Run(INITIAL, before).controls
    ensures Run(Apply(Run(INITIAL, before), ShutdownSwap), after).tasks[t].cancelled
  {
    InvInitially();
    var s := Run(INITIAL, before);
    RunKeepsInv(INITIAL, before);
    StepKeepsInv(s, ShutdownSwap);
    var swapped := Apply(s, ShutdownSwap);
    RunKeepsInv(swapped, after);
    NoSpawnAfterSwap(swapped, after);
    ExecutingAllAlong(swapped, after, t);
  }

  lemma {:induction false} NeverBackIntoTheRun(s: State, step: Step, t: nat)
    requires t in s.tasks
    ensures t in Apply(s, step).tasks && Apply(s, step).tasks[t].run == s.tasks[t].run
    ensures Apply(s, step).tasks[t].phase.Executing? ==> s.tasks[t].phase.Executing?
  {
  }

  /** A task once out of its run never goes back in. */
  lemma {:induction false} ExecutingAllAlong(s: State, steps: seq<Step>, t: nat)
    requires t in s.tasks && t in Run(s, steps).tasks && Run(s, steps).tasks[t].phase.Executing?
    ensures s.tasks[t].phase.Executing? && Run(s, steps).tasks[t].run == s.tasks[t].run
    decreases |steps|
  {
    hide Apply;
    if steps != [] {
      NeverBackIntoTheRun(s, steps[0], t);
      ExecutingAllAlong(Apply(s, steps[0]), steps[1..], t);
    }
  }

  /** A server that is not stopping, with a permit and the lock free, runs a new run at once. */
  lemma {:induction false} FreshStartRuns(s: State, r: nat, run: nat, t: nat)
    requires !s.stopping && s.permits > 0 && s.lock.Free?
    requires r !in s.requests && run !in s.controls && t !in s.tasks
    ensures var reserved := Apply(Apply(s, Ask(r)), Reserve(r));
            var admitted := Apply(Apply(reserved, StartLock(r, run)), StartCheck(r));
            var started := Apply(admitted, StartSpawn(r, t));
            && t in started.tasks && started.tasks[t] == Task(run, Executing, false)
            && run in started.controls && started.lock.Free? && started.permits == s.permits - 1
  {
    var asked := Apply(s, Ask(r));
    assert asked == s.(requests := s.requests[r := Asked]);
    var reserved := Apply(asked, Reserve(r));
    assert reserved == asked.(requests := asked.requests[r := Reserved], permits := s.permits - 1);
    var locked := Apply(reserved, StartLock(r, run));
    assert locked == reserved.(requests := reserved.requests[r := Starting(run)], lock := ByRequest(r));
    var admitted := Apply(locked, StartCheck(r));
    assert admitted == locked.(requests := locked.requests[r := Admitted(run)]);
  }
}
