/**
 * The login and background-compaction supervisors (crates/morons-server/src/login_supervisor.rs and
 * maintenance_supervisor.rs).  Both own one permit, one lock around the current task and a stop flag;
 * they differ in when a starter tests the flag and how it disposes of the previous task.  Requests,
 * tasks and shutdown interleave one atomic step at a time.
 */
module SlotSupervisor {
  import opened Basics

  datatype Kind = Login | Maintenance

  datatype Starter =
    | Arrived
    | Permitted
    | Locked                  // permit and lock
    | Awaiting(previous: nat) // maintenance: took the previous handle, waiting for it to join
    | Cleared                 // nothing is registered any more
    | Admitted                // has seen the stop flag down, holding the lock
    | Spawned(task: nat)      // the task runs with the permit, its handle not yet registered
    | Gone

  datatype Joiner = Joining(task: nat) | Looking

  datatype Phase = Working | Exiting | Finished

  datatype Task = Task(phase: Phase, cancelled: bool)

  datatype Shutdown = Running | StopSet | HasLock | Draining(task: nat) | Emptied | Returned

  datatype Lock = Free | ByStarter(r: nat) | ByJoiner(j: nat) | ByShutdown

  datatype State = State(
    kind: Kind, stopping: bool, permits: int, lock: Lock, active: Option<nat>,
    starters: map<nat, Starter>, joiners: map<nat, Joiner>, tasks: map<nat, Task>, shutdown: Shutdown)

  function Initial(kind: Kind): State
  {
    State(kind, false, 1, Free, None, map[], map[], map[], Running)
  }

  datatype Step =
    | Arrive(r: nat)
    | Acquire(r: nat)
    | TryLock(r: nat)
    | TestStop(r: nat)
    | TakePrevious(r: nat, joinFailed: bool)
    | AwaitPrevious(r: nat, joinFailed: bool)
    | Spawn(r: nat, t: nat)
    | Register(r: nat)
    | GiveUp(r: nat)
    | Exit(t: nat)
    | Finish(t: nat)
    | Cancel(t: nat)
    | Fatal
    | Join(j: nat)
    | JoinMatch(j: nat, t: nat)
    | JoinAbort(j: nat)
    | JoinDone(j: nat)
    | JoinLeave(j: nat)
    | ShutdownStop
    | ShutdownLock
    | ShutdownDrain
    | ShutdownAbort
    | ShutdownTake
    | ShutdownReturn

  function Rank(p: Shutdown): nat
  {
    match p
    case Running => 0 case StopSet => 1 case HasLock => 2 case Draining(_) => 3 case Emptied => 4 case Returned => 5
  }

  predicate HoldsPermit(q: Starter)
  {
    q.Permitted? || q.Locked? || q.Awaiting? || q.Cleared? || q.Admitted?
  }

  predicate HoldsLock(q: Starter)
  {
    q.Locked? || q.Awaiting? || q.Cleared? || q.Admitted? || q.Spawned?
  }

  predicate At(s: State, r: nat, q: Starter)
  {
    r in s.starters && s.starters[r] == q
  }

  predicate Done(s: State, t: nat)
  {
    t in s.tasks && s.tasks[t].phase.Finished?
  }

  predicate Enabled(s: State, step: Step)
  {
    match step
    case Arrive(r) => r !in s.starters && (s.kind.Maintenance? ==> !s.stopping)
    case Acquire(r) => At(s, r, Arrived)
    case TryLock(r) => At(s, r, Permitted)
    case TestStop(r) => if s.kind.Login? then At(s, r, Cleared) || At(s, r, Admitted) else At(s, r, Locked)
    case TakePrevious(r, _) => At(s, r, if s.kind.Login? then Locked else Admitted)
    case AwaitPrevious(r, _) => r in s.starters && s.starters[r].Awaiting? && Done(s, s.starters[r].previous)
    case Spawn(r, t) => At(s, r, if s.kind.Login? then Admitted else Cleared) && t !in s.tasks
    case Register(r) => r in s.starters && s.starters[r].Spawned?
    case GiveUp(r) => r in s.starters && (s.starters[r].Arrived? || HoldsPermit(s.starters[r]))
    case Exit(t) => t in s.tasks && s.tasks[t].phase.Working?
    case Finish(t) => t in s.tasks && s.tasks[t].phase.Exiting?
    case Cancel(t) => t in s.tasks
    case Fatal => true
    case Join(j) => j !in s.joiners && s.lock.Free?
    case JoinMatch(j, t) => j in s.joiners && s.joiners[j].Looking? && s.active == Some(t)
    case JoinAbort(j) => s.kind.Maintenance? && j in s.joiners && s.joiners[j].Joining? && s.joiners[j].task in s.tasks
    case JoinDone(j) => j in s.joiners && s.joiners[j].Joining? && Done(s, s.joiners[j].task)
    case JoinLeave(j) => j in s.joiners
    case ShutdownStop => s.shutdown.Running?
    case ShutdownLock => s.shutdown.StopSet? && s.lock.Free?
    case ShutdownDrain => s.shutdown.HasLock?
    case ShutdownAbort => s.kind.Maintenance? && s.shutdown.Draining? && s.shutdown.task in s.tasks
    case ShutdownTake => s.shutdown.Draining? && Done(s, s.shutdown.task)
    case ShutdownReturn => s.shutdown.Emptied?
  }

  /** A starter leaves, dropping whatever it holds. */
  function Leave(s: State, r: nat): State
    requires r in s.starters
  {
    var q := s.starters[r];
    s.(starters := s.starters[r := Gone],
       permits := if HoldsPermit(q) then s.permits + 1 else s.permits,
       lock := if HoldsLock(q) then Free else s.lock)
  }

  function Become(s: State, r: nat, q: Starter): State
  {
    s.(starters := s.starters[r := q])
  }

  function SetPhase(s: State, t: nat, phase: Phase): State
    requires t in s.tasks
  {
    s.(tasks := s.tasks[t := s.tasks[t].(phase := phase)],
       permits := if s.tasks[t].phase.Working? && !phase.Working? then s.permits + 1 else s.permits)
  }

  function MarkCancelled(s: State, t: nat): State
  {
    if t in s.tasks then s.(tasks := s.tasks[t := s.tasks[t].(cancelled := true)]) else s
  }

  function PerformStart(s: State, step: Step): State
    requires Enabled(s, step)
  {
    match step
    case Arrive(r) => Become(s, r, Arrived)
    case Acquire(r) => if s.permits > 0 then Become(s, r, Permitted).(permits := s.permits - 1) else Leave(s, r)
    case TryLock(r) => if s.lock.Free? then Become(s, r, Locked).(lock := ByStarter(r)) else Leave(s, r)
    case TestStop(r) => if s.stopping then Leave(s, r) else Become(s, r, Admitted)
    case TakePrevious(r, joinFailed) =>
      if s.active.None? then Become(s, r, Cleared)
      else if s.kind.Maintenance? then Become(s, r, Awaiting(s.active.value)).(active := None)
      else if Done(s, s.active.value) then Become(s, r, Cleared).(active := None, stopping := s.stopping || joinFailed)
      else Leave(s, r)
    case AwaitPrevious(r, joinFailed) => if joinFailed then Leave(s, r).(stopping := true) else Become(s, r, Cleared)
    case Spawn(r, t) => Become(s, r, Spawned(t)).(tasks := s.tasks[t := Task(Working, false)])
    case Register(r) => Become(s, r, Gone).(active := Some(s.starters[r].task), lock := Free)
    case GiveUp(r) => Leave(s, r)
    case _ => s
  }

  function PerformRest(s: State, step: Step): State
    requires Enabled(s, step)
  {
    match step
    case Exit(t) => SetPhase(s, t, Exiting)
    case Finish(t) => SetPhase(s, t, Finished)
    case Cancel(t) => MarkCancelled(s, t)
    case Fatal => s.(stopping := true)
    case Join(j) => s.(joiners := s.joiners[j := Looking], lock := ByJoiner(j))
    case JoinMatch(j, t) =>
      var marked := if s.kind.Maintenance? then MarkCancelled(s, t) else s;
      marked.(joiners := s.joiners[j := Joining(t)])
    case JoinAbort(j) => SetPhase(s, s.joiners[j].task, Finished)
    case JoinDone(j) => s.(active := None, joiners := s.joiners - {j}, lock := Free)
    case JoinLeave(j) => s.(joiners := s.joiners - {j}, lock := Free)
    case ShutdownStop => s.(stopping := true, shutdown := StopSet)
    case ShutdownLock => s.(lock := ByShutdown, shutdown := HasLock)
    case ShutdownDrain =>
      if s.active.None? then s.(shutdown := Emptied)
      else MarkCancelled(s, s.active.value).(shutdown := Draining(s.active.value))
    case ShutdownAbort => SetPhase(s, s.shutdown.task, Finished)
    case ShutdownTake => s.(active := None, shutdown := Emptied)
    case ShutdownReturn => s.(lock := Free, shutdown := Returned)
    case _ => s
  }

  predicate OfStarter(step: Step)
  {
    || step.Arrive? || step.Acquire? || step.TryLock? || step.TestStop? || step.TakePrevious? || step.AwaitPrevious?
    || step.Spawn? || step.Register? || step.GiveUp?
  }

  function Perform(s: State, step: Step): State
    requires Enabled(s, step)
  {
    if OfStarter(step) then PerformStart(s, step) else PerformRest(s, step)
  }

  function Apply(s: State, step: Step): State
  {
    if Enabled(s, step) then Perform(s, step) else s
  }

  function Run(s: State, steps: seq<Step>): State
    decreases |steps|
  {
    if steps == [] then s else Run(Apply(s, steps[0]), steps[1..])
  }

  // ----- the invariant -----

  /** A starter that has seen the stop flag down and may still spawn, or has just spawned. */
  predicate PastTest(kind: Kind, q: Starter)
  {
    q.Admitted? || q.Spawned? || (kind.Maintenance? && (q.Awaiting? || q.Cleared?))
  }

  /** A starter that has removed the registered task. */
  predicate PastTake(kind: Kind, q: Starter)
  {
    q.Awaiting? || q.Cleared? || q.Spawned? || (kind.Login? && q.Admitted?)
  }

  predicate Permit(s: State, r: nat)
  {
    r in s.starters && HoldsPermit(s.starters[r])
  }

  predicate Works(s: State, t: nat)
  {
    t in s.tasks && s.tasks[t].phase.Working?
  }

  /** One permit: in the semaphore, with one starter, or with one working task. */
  ghost predicate OnePermit(s: State)
  {
    && 0 <= s.permits <= 1
    && (forall r :: Permit(s, r) ==> s.permits == 0)
    && (forall t :: Works(s, t) ==> s.permits == 0)
    && (forall r, q :: Permit(s, r) && Permit(s, q) ==> r == q)
    && (forall t, u :: Works(s, t) && Works(s, u) ==> t == u)
    && (forall r, t :: Permit(s, r) ==> !Works(s, t))
  }

  ghost predicate OneLock(s: State)
  {
    && (forall r :: r in s.starters && HoldsLock(s.starters[r]) ==> s.lock == ByStarter(r))
    && (forall j :: j in s.joiners ==> s.lock == ByJoiner(j))
    && (s.lock.ByShutdown? <==> 2 <= Rank(s.shutdown) <= 4)
  }

  /** A working task is registered, unless its starter is about to register it under the lock. */
  ghost predicate Registered(s: State)
  {
    && (forall t: nat :: Works(s, t) ==> s.active == Some(t) || (s.lock.ByStarter? && At(s, s.lock.r, Spawned(t))))
    && (forall r :: r in s.starters && PastTake(s.kind, s.starters[r]) ==> s.active.None?)
    && (forall j :: j in s.joiners && s.joiners[j].Joining? ==> s.active == Some(s.joiners[j].task))
    && (s.shutdown.Draining? ==> s.active == Some(s.shutdown.task))
  }

  ghost predicate Stopped(s: State)
  {
    && (Rank(s.shutdown) >= 1 ==> s.stopping)
    && (Rank(s.shutdown) >= 2 ==> forall r :: r in s.starters ==> !PastTest(s.kind, s.starters[r]))
    && (Rank(s.shutdown) >= 4 ==> s.active.None?)
    && (Rank(s.shutdown) >= 3 ==> forall t :: Works(s, t) ==> s.tasks[t].cancelled)
  }

  ghost predicate Inv(s: State)
  {
    OnePermit(s) && OneLock(s) && Registered(s) && Stopped(s)
  }

  /** What a starter's step can change: its own phase, and one new working task when it spawns. */
  lemma {:induction false} StarterMoves(s: State, step: Step)
    requires Enabled(s, step) && OfStarter(step)
    ensures var next := Perform(s, step);
            && (forall r :: r != step.r ==> Permit(next, r) == Permit(s, r))
            && (forall t :: Works(next, t) == (Works(s, t) || (step.Spawn? && t == step.t)))
            && (step.Spawn? ==> Permit(s, step.r) && !Permit(next, step.r) && !Works(s, step.t))
            && (if Permit(s, step.r) == Permit(next, step.r) || step.Spawn? then next.permits == s.permits
                else if Permit(s, step.r) then next.permits == s.permits + 1
                else s.permits > 0 && next.permits == s.permits - 1)
  {
  }

  /** No other step changes a starter or starts a task. */
  lemma {:induction false} OtherMoves(s: State, step: Step)
    requires Enabled(s, step) && !OfStarter(step)
    ensures var next := Perform(s, step);
            && next.starters == s.starters
            && (forall r :: Permit(next, r) == Permit(s, r))
            && (forall t :: Works(next, t) ==> Works(s, t) && (s.tasks[t].cancelled ==> next.tasks[t].cancelled))
            && (forall t :: Works(s, t) && !Works(next, t) ==> next.permits == s.permits + 1)
            && (next.permits != s.permits ==> next.permits == s.permits + 1 && exists t :: Works(s, t) && !Works(next, t))
  {
    var next := Perform(s, step);
    if next.permits != s.permits {
      var t := if step.Exit? then step.t else if step.JoinAbort? then s.joiners[step.j].task else s.shutdown.task;
      assert Works(s, t) && !Works(next, t);
    }
  }

  lemma {:induction false} PermitStep(s: State, step: Step)
    requires OnePermit(s) && Enabled(s, step)
    ensures OnePermit(Perform(s, step))
  {
    var next := Perform(s, step);
    if OfStarter(step) {
      StarterMoves(s, step);
      hide Works, Permit, PerformStart, PerformRest, Enabled, Perform, OfStarter;
    } else {
      OtherMoves(s, step);
      hide Works, Permit, PerformStart, PerformRest, Enabled, Perform, OfStarter;
    }
  }

  /** The steps of a starter on the way to its task. */
  predicate Prepares(step: Step)
  {
    step.TestStop? || step.TakePrevious? || step.AwaitPrevious? || step.Spawn?
  }

  lemma {:induction false} LockWhilePreparing(s: State, step: Step)
    requires OneLock(s) && Enabled(s, step) && Prepares(step)
    ensures OneLock(PerformStart(s, step))
  {
    hide HoldsPermit, Done;
  }

  lemma {:induction false} LockStepOfStarter(s: State, step: Step)
    requires OneLock(s) && Enabled(s, step) && OfStarter(step)
    ensures OneLock(PerformStart(s, step))
  {
    if Prepares(step) {
      LockWhilePreparing(s, step);
    } else {
      LockAtTheEnds(s, step);
    }
    hide OneLock, PerformStart, Enabled;
  }

  lemma {:induction false} LockAtTheEnds(s: State, step: Step)
    requires OneLock(s) && Enabled(s, step) && OfStarter(step) && !Prepares(step)
    ensures OneLock(PerformStart(s, step))
  {
    hide HoldsPermit, Done;
  }

  lemma {:induction false} LockStepOfOther(s: State, step: Step)
    requires OneLock(s) && Enabled(s, step) && !OfStarter(step)
    ensures OneLock(PerformRest(s, step))
  {
    hide HoldsLock;
  }

  lemma {:induction false} LockStep(s: State, step: Step)
    requires OneLock(s) && Enabled(s, step)
    ensures OneLock(Perform(s, step))
  {
    hide OneLock, Enabled, PerformStart, PerformRest;
    if OfStarter(step) { LockStepOfStarter(s, step); } else { LockStepOfOther(s, step); }
  }

  lemma {:induction false} RegisteredByStarter(s: State, step: Step)
    requires Inv(s) && Enabled(s, step) && OfStarter(step)
    ensures Registered(PerformStart(s, step))
  {
    var next := PerformStart(s, step);
    StarterMoves(s, step);
    forall t: nat | Works(next, t)
      ensures next.active == Some(t) || (next.lock.ByStarter? && At(next, next.lock.r, Spawned(t)))
    {
      if step.Spawn? { assert !Works(s, t) ==> t == step.t; }
    }
  }

  lemma {:induction false} RegisteredByOther(s: State, step: Step)
    requires Inv(s) && Enabled(s, step) && !OfStarter(step)
    ensures Registered(PerformRest(s, step))
  {
    OtherMoves(s, step);
    hide OnePermit;
  }

  lemma {:induction false} RegisteredStep(s: State, step: Step)
    requires Inv(s) && Enabled(s, step)
    ensures Registered(Perform(s, step))
  {
    hide Inv, Enabled, PerformStart, PerformRest, Registered;
    if OfStarter(step) { RegisteredByStarter(s, step); } else { RegisteredByOther(s, step); }
  }

  lemma {:induction false} StoppedStep(s: State, step: Step)
    requires Inv(s) && Enabled(s, step)
    ensures Stopped(Perform(s, step))
  {
    if OfStarter(step) { StarterMoves(s, step); } else { OtherMoves(s, step); }
  }

  lemma {:induction false} StepKeepsInv(s: State, step: Step)
    requires Inv(s)
    ensures Inv(Apply(s, step))
  {
    if Enabled(s, step) {
      PermitStep(s, step);
      LockStep(s, step);
      RegisteredStep(s, step);
      StoppedStep(s, step);
    }
    hide OnePermit, OneLock, Registered, Stopped, Perform, Enabled;
  }

  lemma {:induction false} RunKeepsInv(s: State, steps: seq<Step>)
    requires Inv(s)
    ensures Inv(Run(s, steps))
    decreases |steps|
  {
    hide Inv, Apply;
    if steps != [] {
      StepKeepsInv(s, steps[0]);
      RunKeepsInv(Apply(s, steps[0]), steps[1..]);
    }
  }

  // ----- what it means -----

  /** In every interleaving at most one task works, and it is the registered one unless its start is still going on. */
  lemma {:induction false} AtMostOneTask(kind: Kind, steps: seq<Step>, t: nat, u: nat)
    requires var s := Run(Initial(kind), steps); Works(s, t) && Works(s, u)
    ensures t == u
    ensures Run(Initial(kind), steps).lock.Free? ==> Run(Initial(kind), steps).active == Some(t)
  {
    RunKeepsInv(Initial(kind), steps);
  }

  lemma {:induction false} NoSpawnUnderShutdown(s: State, step: Step)
    requires Stopped(s) && Rank(s.shutdown) >= 2 && step.Spawn?
    ensures !Enabled(s, step)
  {
    if step.r in s.starters { assert !PastTest(s.kind, s.starters[step.r]); }
  }

  lemma {:induction false} OnlySpawnsAddTasks(s: State, step: Step)
    requires Enabled(s, step) && OfStarter(step) && !step.Spawn?
    ensures PerformStart(s, step).tasks == s.tasks && PerformStart(s, step).shutdown == s.shutdown
  {
    hide HoldsPermit, HoldsLock;
  }

  lemma {:induction false} CancelKeepsTasks(s: State, t: nat)
    ensures MarkCancelled(s, t).tasks.Keys == s.tasks.Keys && MarkCancelled(s, t).shutdown == s.shutdown
  {
  }

  lemma {:induction false} OthersAddNoTasks(s: State, step: Step)
    requires Enabled(s, step) && !OfStarter(step)
    ensures PerformRest(s, step).tasks.Keys == s.tasks.Keys && Rank(PerformRest(s, step).shutdown) >= Rank(s.shutdown)
  {
    hide MarkCancelled, HoldsPermit, HoldsLock;
    match step
    case Cancel(t) => CancelKeepsTasks(s, t);
    case JoinMatch(_, t) => CancelKeepsTasks(s, t);
    case ShutdownDrain => if s.active.Some? { CancelKeepsTasks(s, s.active.value); }
    case _ =>
  }

  lemma {:induction false} ShutdownStep(s: State, step: Step)
    requires Inv(s) && Rank(s.shutdown) >= 2
    ensures Apply(s, step).tasks.Keys == s.tasks.Keys
    ensures Rank(Apply(s, step).shutdown) >= Rank(s.shutdown)
  {
    if step.Spawn? { NoSpawnUnderShutdown(s, step); }
    if Enabled(s, step) {
      if OfStarter(step) { OnlySpawnsAddTasks(s, step); } else { OthersAddNoTasks(s, step); }
    }
    hide OnePermit, OneLock, Registered, Stopped, Enabled, PerformStart, PerformRest, OfStarter;
  }

  lemma {:induction false} NothingStartsOnceShutdownHasTheLock(s: State, steps: seq<Step>)
    requires Inv(s) && Rank(s.shutdown) >= 2
    ensures Run(s, steps).tasks.Keys == s.tasks.Keys
    ensures Rank(Run(s, steps).shutdown) >= Rank(s.shutdown)
    decreases |steps|
  {
    hide Inv, Apply;
    if steps != [] {
      StepKeepsInv(s, steps[0]);
      ShutdownStep(s, steps[0]);
      NothingStartsOnceShutdownHasTheLock(Apply(s, steps[0]), steps[1..]);
    }
  }

  /** Whoever still works while shutdown waits is the task it waits for, and has been told to stop. */
  lemma {:induction false} DrainWaitsForTheWorker(kind: Kind, steps: seq<Step>, t: nat)
    requires var s := Run(Initial(kind), steps); Works(s, t) && Rank(s.shutdown) >= 3
    ensures Run(Initial(kind), steps).shutdown == Draining(t)
    ensures Run(Initial(kind), steps).tasks[t].cancelled
  {
    RunKeepsInv(Initial(kind), steps);
  }

  /** When shutdown has returned nothing works, and nothing that happens afterwards starts anything. */
  lemma {:induction false} ShutdownIsFinal(kind: Kind, before: seq<Step>, after: seq<Step>)
    requires Run(Initial(kind), before).shutdown.Returned?
    ensures var s := Run(Initial(kind), before);
            var later := Run(s, after);
            later.tasks.Keys == s.tasks.Keys && forall t :: !Works(s, t) && !Works(later, t)
  {
    var s := Run(Initial(kind), before);
    RunKeepsInv(Initial(kind), before);
    RunKeepsInv(s, after);
    NothingStartsOnceShutdownHasTheLock(s, after);
    assert Rank(Run(s, after).shutdown) >= 5;
  }

  lemma {:induction false} StarterGetsTheLock(s: State, r: nat)
    requires !s.stopping && s.permits == 1 && s.lock.Free? && r !in s.starters
    ensures Apply(Apply(Apply(s, Arrive(r)), Acquire(r)), TryLock(r))
         == s.(starters := s.starters[r := Locked], permits := 0, lock := ByStarter(r))
  {
    var arrived := Apply(s, Arrive(r));
    assert arrived == Become(s, r, Arrived);
    var permitted := Apply(arrived, Acquire(r));
    assert permitted == Become(arrived, r, Permitted).(permits := 0);
    assert s.starters[r := Arrived][r := Permitted][r := Locked] == s.starters[r := Locked];
  }

  lemma {:induction false} LockedStarterIsAdmitted(s: State, r: nat)
    requires !s.stopping && s.active.None? && At(s, r, Locked)
    ensures s.kind.Login? ==> Apply(Apply(s, TakePrevious(r, false)), TestStop(r)) == Become(s, r, Admitted)
    ensures s.kind.Maintenance? ==> Apply(Apply(s, TestStop(r)), TakePrevious(r, false)) == Become(s, r, Cleared)
  {
    if s.kind.Login? {
      assert Apply(s, TakePrevious(r, false)) == Become(s, r, Cleared);
      assert s.starters[r := Cleared][r := Admitted] == s.starters[r := Admitted];
    } else {
      assert Apply(s, TestStop(r)) == Become(s, r, Admitted);
      assert s.starters[r := Admitted][r := Cleared] == s.starters[r := Cleared];
    }
  }

  /** With the slot free and no shutdown under way, a start leads to a working, registered task in both supervisors. */
  lemma {:induction false} FreshStartWorks(s: State, r: nat, t: nat)
    requires !s.stopping && s.permits == 1 && s.lock.Free? && s.active.None? && r !in s.starters && t !in s.tasks
    ensures var locked := Apply(Apply(Apply(s, Arrive(r)), Acquire(r)), TryLock(r));
            var ready := if s.kind.Login? then Apply(Apply(locked, TakePrevious(r, false)), TestStop(r))
                         else Apply(Apply(locked, TestStop(r)), TakePrevious(r, false));
            var started := Apply(Apply(ready, Spawn(r, t)), Register(r));
            Works(started, t) && started.active == Some(t) && started.lock.Free? && started.permits == 0
  {
    StarterGetsTheLock(s, r);
    var locked := s.(starters := s.starters[r := Locked], permits := 0, lock := ByStarter(r));
    LockedStarterIsAdmitted(locked, r);
    var ready := Become(locked, r, if s.kind.Login? then Admitted else Cleared);
    TaskIsRegistered(ready, r, t);
    hide Apply;
  }

  lemma {:induction false} TaskIsRegistered(s: State, r: nat, t: nat)
    requires At(s, r, if s.kind.Login? then Admitted else Cleared) && t !in s.tasks
    ensures var started := Apply(Apply(s, Spawn(r, t)), Register(r));
            Works(started, t) && started.active == Some(t) && started.lock.Free? && started.permits == s.permits
  {
    var spawned := Apply(s, Spawn(r, t));
    assert spawned == Become(s, r, Spawned(t)).(tasks := s.tasks[t := Task(Working, false)]);
  }
}
