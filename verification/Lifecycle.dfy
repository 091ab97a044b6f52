/**
 * Connecting to the local server, starting it when needed (crates/morons-cli/src/lifecycle.rs): one loop
 * over discovery, a deadline that restarts when another initializer finishes, and at most one companion.
 * Time is in milliseconds and never runs backwards.
 */
module Lifecycle {
  import opened Basics

  const RETRY_DELAY := 50
  const INCOMPLETE_GRACE := 2_000

  datatype Discovery = Absent | Incomplete | Starting | Registered(pid: nat)

  /** What the loop does, in order; `Left` restarts the deadline. */
  datatype Event =
    | Saw(discovery: Discovery, at: int)
    | Feedback
    | Left(at: int)
    | Unreachable(pid: nat)
    | Spawned(pid: nat)

  datatype Failure =
    | ControlFailed | CompanionIo | CompanionInvalid | ConnectFailed
    | CompanionExited | StayedIncomplete | DebugRequiresStoppedServer | StartupTimedOut

  datatype Connected = Connected(pid: nat, launchedCompanion: bool)

  // ----- the record of a run -----

  function LastSeen(trace: seq<Event>): Option<Discovery>
  {
    if trace == [] then None
    else if trace[|trace| - 1].Saw? then Some(trace[|trace| - 1].discovery)
    else LastSeen(trace[..|trace| - 1])
  }

  function LastLeft(trace: seq<Event>): Option<int>
  {
    if trace == [] then None
    else if trace[|trace| - 1].Left? then Some(trace[|trace| - 1].at)
    else LastLeft(trace[..|trace| - 1])
  }

  /** Since when every discovery has been `Incomplete`, if the last one was. */
  function IncompleteSince(trace: seq<Event>): Option<int>
  {
    if trace == [] then None
    else
      var before, last := IncompleteSince(trace[..|trace| - 1]), trace[|trace| - 1];
      if !last.Saw? then before
      else if !last.discovery.Incomplete? then None
      else if before.Some? then before
      else Some(last.at)
  }

  function Count(trace: seq<Event>, what: Event -> bool): nat
  {
    if trace == [] then 0 else Count(trace[..|trace| - 1], what) + (if what(trace[|trace| - 1]) then 1 else 0)
  }

  function Spawns(trace: seq<Event>): nat
  {
    Count(trace, (e: Event) => e.Spawned?)
  }

  function Feedbacks(trace: seq<Event>): nat
  {
    Count(trace, (e: Event) => e.Feedback?)
  }

  predicate SawStarting(trace: seq<Event>)
  {
    Count(trace, (e: Event) => e.Saw? && e.discovery.Starting?) > 0
  }

  /** When the companion may be started: nothing is registered, or what is registered does not answer. */
  predicate MaySpawn(before: seq<Event>)
  {
    || LastSeen(before) == Some(Absent)
    || (before != [] && before[|before| - 1].Unreachable? && LastSeen(before) == Some(Registered(before[|before| - 1].pid)))
  }

  predicate Proper(before: seq<Event>, event: Event)
  {
    match event
    case Saw(_, _) => true
    case Feedback => LastSeen(before) == Some(Starting) && Feedbacks(before) == 0
    case Left(_) => SawStarting(before) && LastSeen(before) != Some(Starting)
    case Unreachable(pid) => LastSeen(before) == Some(Registered(pid))
    case Spawned(_) => MaySpawn(before) && Spawns(before) == 0
  }

  ghost predicate AllProper(trace: seq<Event>)
  {
    forall i :: 0 <= i < |trace| ==> Proper(trace[..i], trace[i])
  }

  lemma {:induction false} ProperExtends(trace: seq<Event>, event: Event)
    requires AllProper(trace) && Proper(trace, event)
    ensures AllProper(trace + [event])
    ensures (trace + [event])[..|trace|] == trace
  {
    hide Proper;
    var longer := trace + [event];
    assert longer[..|trace|] == trace;
    forall i | 0 <= i < |longer| ensures Proper(longer[..i], longer[i]) {
      if i < |trace| { assert longer[..i] == trace[..i]; }
    }
  }

  // ----- the world -----

  /** Some later moment. */
  method Pass(now: int) returns (later: int)
    ensures later >= now
  {
    var elapsed :| elapsed >= 0;
    later := now + elapsed;
  }

  method SleepUntil(now: int, target: int) returns (later: int)
    ensures later >= now && later >= target
  {
    later := Pass(Max(now, target));
  }

  /** Another initializer is seen at work at most `startings` more times. */
  method Discover(startings: nat) returns (r: Result<Discovery, Failure>, left: nat)
    ensures r.Err? ==> r.error == ControlFailed
    ensures left == if r == Ok(Starting) then startings - 1 else startings
    ensures r == Ok(Starting) ==> startings > 0
  {
    left := startings;
    var failed, starting, absent, incomplete: bool := *, *, *, *;
    if failed { return Err(ControlFailed), left; }
    if starting && startings > 0 { return Ok(Starting), startings - 1; }
    if absent { return Ok(Absent), left; }
    if incomplete { return Ok(Incomplete), left; }
    var pid: nat :| true;
    return Ok(Registered(pid)), left;
  }

  /** `Ok(true)` when the child has exited and been collected. */
  method Reap(child: Option<nat>) returns (r: Result<bool, Failure>, still: Option<nat>)
    ensures r.Err? ==> r.error == CompanionIo
    ensures still == child || still.None?
    ensures r == Ok(true) ==> child.Some? && still.None?
    ensures r == Ok(false) ==> still == child
  {
    var failed, exited: bool := *, *;
    if child.None? { return Ok(false), None; }
    if failed { return Err(CompanionIo), child; }
    if exited { return Ok(true), None; }
    return Ok(false), child;
  }

  method Spawn() returns (r: Result<nat, Failure>)
    ensures r.Err? ==> r.error == CompanionInvalid || r.error == CompanionIo
  {
    var found, failed: bool := *, *;
    if !found { return Err(CompanionInvalid); }
    if failed { return Err(CompanionIo); }
    var pid: nat :| true;
    return Ok(pid);
  }

  /** `Ok(true)` when connected, authenticated and greeted; `Ok(false)` when nobody listens. */
  method ConnectRegistered() returns (r: Result<bool, Failure>)
    ensures r.Err? ==> r.error == ConnectFailed
  {
    var failed, connected: bool := *, *;
    if failed { return Err(ConnectFailed); }
    return Ok(connected);
  }

  // ----- the loop -----

  class StartupInitializationProgress {
    var feedbackReported: bool
    var latestDiscoveryWasStarting: bool

    constructor ()
      ensures !feedbackReported && !latestDiscoveryWasStarting
    {
      feedbackReported, latestDiscoveryWasStarting := false, false;
    }

    /** Feedback is due at the first Starting only; leaving is noticed at the first other discovery after one. */
    method Observe(isStarting: bool) returns (reportStarting: bool, leftStarting: bool)
      modifies this
      ensures latestDiscoveryWasStarting == isStarting
      ensures feedbackReported == (old(feedbackReported) || isStarting)
      ensures reportStarting == (isStarting && !old(feedbackReported))
      ensures leftStarting == (old(latestDiscoveryWasStarting) && !isStarting)
    {
      leftStarting := latestDiscoveryWasStarting && !isStarting;
      latestDiscoveryWasStarting := isStarting;
      reportStarting := isStarting && !feedbackReported;
      if isStarting { feedbackReported := true; }
    }
  }

  /** What the loop knows of its own past. */
  ghost predicate Remembered(trace: seq<Event>, feedbackReported: bool, latestWasStarting: bool,
        launched: bool, child: Option<nat>)
  {
    && AllProper(trace)
    && Spawns(trace) == (if launched then 1 else 0)
    && Feedbacks(trace) == (if feedbackReported then 1 else 0)
    && (feedbackReported <==> SawStarting(trace))
    && (latestWasStarting <==> LastSeen(trace) == Some(Starting))
    && (latestWasStarting ==> feedbackReported)
    && (child.Some? ==> launched && Spawned(child.value) in trace)
  }

  /** The deadline is the first one, or a full timeout after the last time an initializer finished. */
  predicate DeadlineIs(trace: seq<Event>, first: int, startupTimeout: nat, deadline: int)
  {
    deadline == match LastLeft(trace) case None => first case Some(at) => at + startupTimeout
  }

  lemma {:induction false} Records(trace: seq<Event>, event: Event, feedbackReported: bool, latest: bool,
        launched: bool, child: Option<nat>)
    requires Remembered(trace, feedbackReported, latest, launched, child) && Proper(trace, event)
    ensures var next := trace + [event];
            && AllProper(next)
            && Spawns(next) == (if launched then 1 else 0) + (if event.Spawned? then 1 else 0)
            && Feedbacks(next) == (if feedbackReported then 1 else 0) + (if event.Feedback? then 1 else 0)
            && (SawStarting(next) <==> feedbackReported || (event.Saw? && event.discovery.Starting?))
            && LastSeen(next) == (if event.Saw? then Some(event.discovery) else LastSeen(trace))
            && LastLeft(next) == (if event.Left? then Some(event.at) else LastLeft(trace))
            && IncompleteSince(next) == (if !event.Saw? then IncompleteSince(trace)
                                         else if !event.discovery.Incomplete? then None
                                         else if IncompleteSince(trace).Some? then IncompleteSince(trace) else Some(event.at))
            && (child.Some? ==> Spawned(child.value) in next)
            && event in next
  {
    ProperExtends(trace, event);
  }

  /** What is promised of a finished call. */
  ghost predicate Explained(r: Result<Connected, Failure>, trace: seq<Event>, debug: bool, first: int,
        startupTimeout: nat, now: int)
  {
    && AllProper(trace) && Spawns(trace) <= 1 && Feedbacks(trace) == (if SawStarting(trace) then 1 else 0)
    && (r.Ok? ==> LastSeen(trace) == Some(Registered(r.value.pid)) && (r.value.launchedCompanion <==> Spawns(trace) == 1))
    && (r.Ok? && debug ==> Spawned(r.value.pid) in trace)
    && (r == Err(StartupTimedOut) ==>
          LastSeen(trace) != Some(Starting) && forall d :: DeadlineIs(trace, first, startupTimeout, d) ==> now >= d)
    && (r == Err(CompanionExited) ==> Spawns(trace) == 1 && (LastSeen(trace) == Some(Absent) || LastSeen(trace) == Some(Incomplete)))
    && (r == Err(StayedIncomplete) ==>
          LastSeen(trace) == Some(Incomplete) && IncompleteSince(trace).Some? && now - IncompleteSince(trace).value >= INCOMPLETE_GRACE)
  }

  /** Records a discovery, its feedback and the end of an initialization, and restarts the deadline. */
  method Note(progress: StartupInitializationProgress, discovery: Discovery, before: seq<Event>, begun: int,
              deadline: int, startupTimeout: nat, ghost first: int, ghost launched: bool, ghost child: Option<nat>)
    returns (trace: seq<Event>, newDeadline: int, now: int)
    requires Remembered(before, progress.feedbackReported, progress.latestDiscoveryWasStarting, launched, child)
    requires DeadlineIs(before, first, startupTimeout, deadline)
    modifies progress
    ensures Remembered(trace, progress.feedbackReported, progress.latestDiscoveryWasStarting, launched, child)
    ensures DeadlineIs(trace, first, startupTimeout, newDeadline)
    ensures LastSeen(trace) == Some(discovery) && now >= begun
    ensures IncompleteSince(trace) == if !discovery.Incomplete? then None
                                      else if IncompleteSince(before).Some? then IncompleteSince(before) else Some(begun)
    ensures progress.latestDiscoveryWasStarting == discovery.Starting?
    ensures discovery.Starting? || !old(progress.latestDiscoveryWasStarting) ==> newDeadline == deadline
  {
    hide AllProper, Spawns, Feedbacks, SawStarting, LastSeen, LastLeft, IncompleteSince;
    trace, newDeadline, now := before, deadline, begun;
    ghost var had := progress.feedbackReported;
    ghost var latest := progress.latestDiscoveryWasStarting;
    Records(trace, Saw(discovery, now), had, latest, launched, child);
    trace := trace + [Saw(discovery, now)];
    var report, left := progress.Observe(discovery.Starting?);
    if report {
      FeedbackRecords(trace, launched, child);
      trace := trace + [Feedback];
    }
    assert Remembered(trace, progress.feedbackReported, progress.latestDiscoveryWasStarting, launched, child);
    if left {
      now := Pass(now);
      Records(trace, Left(now), progress.feedbackReported, progress.latestDiscoveryWasStarting, launched, child);
      trace := trace + [Left(now)];
      newDeadline := now + startupTimeout;
    }
  }

  lemma {:induction false} FeedbackRecords(trace: seq<Event>, launched: bool, child: Option<nat>)
    requires AllProper(trace) && Spawns(trace) == (if launched then 1 else 0)
    requires Feedbacks(trace) == 0 && SawStarting(trace) && LastSeen(trace) == Some(Starting)
    requires child.Some? ==> launched && Spawned(child.value) in trace
    ensures Remembered(trace + [Feedback], true, true, launched, child)
    ensures LastLeft(trace + [Feedback]) == LastLeft(trace) && IncompleteSince(trace + [Feedback]) == IncompleteSince(trace)
  {
    ProperExtends(trace, Feedback);
  }

  /** The start of the companion, at most once and only where discovery allows it. */
  method Launch(trace: seq<Event>, launched: bool, child: Option<nat>, allowed: bool, ghost reported: bool,
        ghost latest: bool)
    returns (r: Result<bool, Failure>, next: seq<Event>, newChild: Option<nat>)
    requires Remembered(trace, reported, latest, launched, child) && (allowed ==> MaySpawn(trace))
    ensures r.Err? ==> r.error == CompanionInvalid || r.error == CompanionIo
    ensures r.Err? ==> next == trace && newChild == child
    ensures r.Ok? ==> r.value == (launched || allowed) && Remembered(next, reported, latest, r.value, newChild)
    ensures LastLeft(next) == LastLeft(trace) && LastSeen(next) == LastSeen(trace) && IncompleteSince(next) == IncompleteSince(trace)
  {
    hide AllProper, Spawns, Feedbacks, SawStarting, LastSeen, LastLeft, IncompleteSince, MaySpawn;
    next, newChild := trace, child;
    if !allowed || launched { return Ok(launched), next, newChild; }
    var pid := Spawn();
    if pid.Err? { return Err(pid.error), next, newChild; }
    assert Proper(trace, Spawned(pid.value));
    Records(trace, Spawned(pid.value), reported, latest, launched, child);
    next := trace + [Spawned(pid.value)];
    newChild := Some(pid.value);
    return Ok(true), next, newChild;
  }

  lemma {:induction false} NothingYet(firstDeadline: int, startupTimeout: nat)
    ensures Remembered([], false, false, false, None) && DeadlineIs([], firstDeadline, startupTimeout, firstDeadline)
    ensures IncompleteSince([]) == None
  {
  }

  lemma {:induction false} Failed(trace: seq<Event>, reported: bool, latest: bool, launched: bool,
        child: Option<nat>, error: Failure,
               debug: bool, first: int, startupTimeout: nat, now: int)
    requires Remembered(trace, reported, latest, launched, child)
    requires !error.StartupTimedOut? && !error.CompanionExited? && !error.StayedIncomplete?
    ensures Explained(Err(error), trace, debug, first, startupTimeout, now)
  {
    hide AllProper, Spawns, Feedbacks, SawStarting, LastSeen, LastLeft, IncompleteSince;
  }

  lemma {:induction false} ExitedTooLong(trace: seq<Event>, reported: bool, latest: bool, child: Option<nat>,
        discovery: Discovery,
                      debug: bool, first: int, startupTimeout: nat, now: int)
    requires Remembered(trace, reported, latest, true, child) && (discovery.Absent? || discovery.Incomplete?)
    ensures Explained(Err(CompanionExited), trace + [Saw(discovery, now)], debug, first, startupTimeout, now)
  {
    hide AllProper, Spawns, Feedbacks, SawStarting, LastSeen, LastLeft, IncompleteSince;
    Records(trace, Saw(discovery, now), reported, latest, true, child);
  }

  lemma {:induction false} StillStarting(trace: seq<Event>, reported: bool, launched: bool, child: Option<nat>,
        first: int, startupTimeout: nat,
                      deadline: int, debug: bool, now: int)
    requires Remembered(trace, reported, false, launched, child) && DeadlineIs(trace, first, startupTimeout, deadline)
    requires now >= deadline
    ensures Explained(Err(StartupTimedOut), trace, debug, first, startupTimeout, now)
  {
    hide AllProper, Spawns, Feedbacks, SawStarting, LastSeen, LastLeft, IncompleteSince;
  }

  lemma {:induction false} SameDeadline(a: seq<Event>, b: seq<Event>, first: int, startupTimeout: nat, deadline: int)
    requires DeadlineIs(a, first, startupTimeout, deadline) && LastLeft(a) == LastLeft(b)
    ensures DeadlineIs(b, first, startupTimeout, deadline)
  {
  }

  lemma {:induction false} ForgetChild(trace: seq<Event>, reported: bool, latest: bool, launched: bool,
        child: Option<nat>, still: Option<nat>)
    requires Remembered(trace, reported, latest, launched, child) && (still == child || still.None?)
    ensures Remembered(trace, reported, latest, launched, still) && (child.Some? ==> launched)
  {
  }

  lemma {:induction false} IncompleteTooLong(trace: seq<Event>, reported: bool, launched: bool, child: Option<nat>,
                          debug: bool, first: int, startupTimeout: nat, now: int)
    requires Remembered(trace, reported, false, launched, child) && LastSeen(trace) == Some(Incomplete)
    requires IncompleteSince(trace).Some? && now - IncompleteSince(trace).value >= INCOMPLETE_GRACE
    ensures Explained(Err(StayedIncomplete), trace, debug, first, startupTimeout, now)
  {
    hide AllProper, Spawns, Feedbacks, SawStarting, LastSeen, LastLeft, IncompleteSince;
  }

  lemma {:induction false} Succeeded(trace: seq<Event>, reported: bool, launched: bool, child: Option<nat>, pid: nat,
                  debug: bool, first: int, startupTimeout: nat, now: int)
    requires Remembered(trace, reported, false, launched, child) && LastSeen(trace) == Some(Registered(pid))
    requires debug ==> child == Some(pid)
    ensures Explained(Ok(Connected(pid, launched)), trace, debug, first, startupTimeout, now)
  {
    hide AllProper, Spawns, Feedbacks, SawStarting, LastSeen, LastLeft, IncompleteSince;
  }

  lemma {:induction false} NobodyListens(trace: seq<Event>, reported: bool, launched: bool, child: Option<nat>,
        pid: nat)
    requires Remembered(trace, reported, false, launched, child) && LastSeen(trace) == Some(Registered(pid))
    ensures Remembered(trace + [Unreachable(pid)], reported, false, launched, child)
    ensures LastLeft(trace + [Unreachable(pid)]) == LastLeft(trace) && MaySpawn(trace + [Unreachable(pid)])
    ensures IncompleteSince(trace + [Unreachable(pid)]) == IncompleteSince(trace)
  {
    hide AllProper, Spawns, Feedbacks, SawStarting, LastSeen, LastLeft, IncompleteSince;
    Records(trace, Unreachable(pid), reported, false, launched, child);
  }

  /** How long a state has lasted: since it was first noticed, or only now. */
  function Since(noticed: Option<int>, now: int): int
  {
    match noticed case Some(at) => at case None => now
  }

  /** The loop's own note of how long control has been incomplete is no older than the record says. */
  ghost predicate Noticed(trace: seq<Event>, since: Option<int>, now: int)
  {
    && (IncompleteSince(trace).Some? ==> IncompleteSince(trace).value <= Since(since, now))
    && (since.Some? ==> since.value <= now && IncompleteSince(trace).Some?)
  }

  /** What one discovery leads to: an end, or another turn in which the companion may be started. */
  method Act(discovery: Discovery, debug: bool, launched: bool, child: Option<nat>, trace: seq<Event>,
        since: Option<int>,
             begun: int, ghost reported: bool, ghost first: int, ghost startupTimeout: nat)
    returns (done: bool, r: Result<Connected, Failure>, next: seq<Event>, newSince: Option<int>, now: int)
    requires Remembered(trace, reported, discovery.Starting?, launched, child) && LastSeen(trace) == Some(discovery)
    requires discovery.Incomplete? <==> IncompleteSince(trace).Some?
    requires discovery.Incomplete? ==> Noticed(trace, since, begun)
    ensures now >= begun
    ensures !done ==> Noticed(next, newSince, now)
    ensures discovery.Absent? ==> !done
    ensures discovery.Starting? ==> (done <==> debug && !launched) && (done ==> r == Err(DebugRequiresStoppedServer))
    ensures discovery.Incomplete? ==>
              && newSince.Some? && (since.Some? ==> newSince == since)
              && (done <==> now - newSince.value >= INCOMPLETE_GRACE) && (done ==> r == Err(StayedIncomplete))
    ensures discovery.Registered? && !done ==> next == trace + [Unreachable(discovery.pid)]
    ensures done && r.Ok? ==> discovery == Registered(r.value.pid) && r.value.launchedCompanion == launched
    ensures done && r.Ok? && debug ==> child == Some(r.value.pid)
    ensures done ==> Explained(r, next, debug, first, startupTimeout, now)
    ensures !done ==> Remembered(next, reported, discovery.Starting?, launched, child) && LastLeft(next) == LastLeft(trace)
    ensures !done && (discovery.Absent? || discovery.Registered?) ==> MaySpawn(next)
  {
    hide AllProper, Spawns, Feedbacks, SawStarting, LastSeen, LastLeft, IncompleteSince, Explained, Remembered;
    done, r, next, newSince, now := false, Err(ControlFailed), trace, None, begun;
    match discovery
    case Absent =>
    case Incomplete =>
      newSince := Some(Since(since, now));
      now := Pass(now);
      if now - newSince.value >= INCOMPLETE_GRACE {
        done, r := true, Err(StayedIncomplete);
        IncompleteTooLong(trace, reported, launched, child, debug, first, startupTimeout, now);
      }
    case Starting =>
      if debug && !launched {
        done, r := true, Err(DebugRequiresStoppedServer);
        Failed(trace, reported, true, launched, child, r.error, debug, first, startupTimeout, now);
      }
    case Registered(pid) =>
      var matches := child == Some(pid);
      var connected := ConnectRegistered();
      now := Pass(now);
      if connected.Err? {
        done, r := true, Err(connected.error);
        Failed(trace, reported, false, launched, child, r.error, debug, first, startupTimeout, now);
      } else if connected.value {
        done := true;
        var reaped, still := Reap(child);
        if reaped.Err? {
          r := Err(reaped.error);
          Failed(trace, reported, false, launched, child, r.error, debug, first, startupTimeout, now);
        } else if debug && !matches {
          r := Err(DebugRequiresStoppedServer);
          Failed(trace, reported, false, launched, child, r.error, debug, first, startupTimeout, now);
        } else {
          r := Ok(Connected(pid, launched));
          Succeeded(trace, reported, launched, child, pid, debug, first, startupTimeout, now);
        }
      } else {
        NobodyListens(trace, reported, launched, child, pid);
        next := trace + [Unreachable(pid)];
      }
  }

  /** The head of a turn: collect the child, discover, and give up on a companion that exited for nothing. */
  method Look(trace: seq<Event>, child: Option<nat>, exited: bool, exitSeen: Option<int>, left: nat, begun: int,
              ghost reported: bool, ghost latest: bool, ghost launched: bool,
              ghost debug: bool, ghost first: int, ghost startupTimeout: nat)
    returns (r: Result<Discovery, Failure>, next: seq<Event>, still: Option<nat>, nowExited: bool, nowSeen: Option<int>,
             nowLeft: nat, now: int)
    requires Remembered(trace, reported, latest, launched, child) && (exited ==> launched)
    ensures now >= begun
    ensures r.Err? ==> Explained(Err(r.error), next, debug, first, startupTimeout, now)
    ensures r == Err(CompanionExited) ==>
              nowExited && nowSeen.Some? && now - nowSeen.value >= INCOMPLETE_GRACE && (exitSeen.Some? ==> nowSeen == exitSeen)
    ensures r.Ok? ==>
              && (nowSeen.Some? <==> nowExited && (r.value.Absent? || r.value.Incomplete?))
              && (nowSeen.Some? ==> now - nowSeen.value < INCOMPLETE_GRACE && (exitSeen.Some? ==> nowSeen == exitSeen))
    ensures r.Ok? ==>
              && next == trace && Remembered(trace, reported, latest, launched, still) && (nowExited ==> launched)
              && nowLeft == (if r.value.Starting? then left - 1 else left)
  {
    hide Explained, Remembered;
    next, nowExited, nowSeen, nowLeft, now := trace, exited, None, left, begun;
    var reaped;
    reaped, still := Reap(child);
    ForgetChild(trace, reported, latest, launched, child, still);
    if reaped.Err? {
      Failed(trace, reported, latest, launched, still, reaped.error, debug, first, startupTimeout, now);
      r := Err(reaped.error);
      return;
    }
    nowExited := exited || reaped.value;
    r, nowLeft := Discover(left);
    now := Pass(now);
    if r.Err? {
      Failed(trace, reported, latest, launched, still, r.error, debug, first, startupTimeout, now);
      return;
    }
    if nowExited && (r.value.Absent? || r.value.Incomplete?) {
      nowSeen := Some(Since(exitSeen, now));
      now := Pass(now);
      if now - nowSeen.value >= INCOMPLETE_GRACE {
        ExitedTooLong(trace, reported, latest, still, r.value, debug, first, startupTimeout, now);
        r, next := Err(CompanionExited), trace + [Saw(r.value, now)];
      }
    }
  }

  /** The tail of a turn: start the companion if this is the moment, and collect it if it is already gone. */
  method Follow(trace: seq<Event>, launched: bool, child: Option<nat>, allowed: bool, exited: bool, now: int,
                ghost reported: bool, ghost latest: bool, ghost debug: bool, ghost first: int, ghost startupTimeout: nat)
    returns (r: Result<bool, Failure>, next: seq<Event>, still: Option<nat>, nowExited: bool)
    requires Remembered(trace, reported, latest, launched, child) && (allowed ==> MaySpawn(trace)) && (exited ==> launched)
    ensures r.Err? ==> Explained(Err(r.error), next, debug, first, startupTimeout, now)
    ensures r.Ok? ==>
              && r.value == (launched || allowed) && Remembered(next, reported, latest, r.value, still)
              && LastLeft(next) == LastLeft(trace) && IncompleteSince(next) == IncompleteSince(trace) && (nowExited ==> r.value)
  {
    hide Explained, Remembered, LastLeft, LastSeen, IncompleteSince, MaySpawn;
    nowExited := exited;
    r, next, still := Launch(trace, launched, child, allowed, reported, latest);
    if r.Err? {
      Failed(next, reported, latest, launched, still, r.error, debug, first, startupTimeout, now);
      return;
    }
    var reaped, kept := Reap(still);
    ForgetChild(next, reported, latest, r.value, still, kept);
    still := kept;
    if reaped.Err? {
      Failed(next, reported, latest, r.value, still, reaped.error, debug, first, startupTimeout, now);
      r := Err(reaped.error);
      return;
    }
    nowExited := exited || reaped.value;
  }

  /**
   * The whole call.  It ends: each time an initializer is seen at work there is one less to come, and
   * otherwise every turn brings the clock nearer to the deadline by the retry delay, or to it.
   */
  method ConnectOrStart(debug: bool, start: int, firstDeadline: int, startupTimeout: nat, startings: nat)
    returns (r: Result<Connected, Failure>, trace: seq<Event>, now: int)
    ensures Explained(r, trace, debug, firstDeadline, startupTimeout, now)
    ensures now >= start
  {
    hide AllProper, Spawns, Feedbacks, SawStarting, LastSeen, LastLeft, IncompleteSince, MaySpawn, Explained, DeadlineIs, Remembered;
    trace, now := [], start;
    var deadline, launched, exited, left := firstDeadline, false, false, startings;
    var child: Option<nat> := None;
    var exitSeen: Option<int>, incompleteSince: Option<int> := None, None;
    var progress := new StartupInitializationProgress();
    NothingYet(firstDeadline, startupTimeout);
    while true
      invariant fresh(progress) && now >= start && (exited ==> launched)
      invariant Remembered(trace, progress.feedbackReported, progress.latestDiscoveryWasStarting, launched, child)
      invariant DeadlineIs(trace, firstDeadline, startupTimeout, deadline) && Noticed(trace, incompleteSince, now)
      decreases left, if progress.latestDiscoveryWasStarting then 1 else 0, Max(0, deadline - now)
    {
      var seen;
      seen, trace, child, exited, exitSeen, left, now :=
        Look(trace, child, exited, exitSeen, left, now, progress.feedbackReported, progress.latestDiscoveryWasStarting, launched,
             debug, firstDeadline, startupTimeout);
      if seen.Err? { return Err(seen.error), trace, now; }
      var discovery := seen.value;
      trace, deadline, now := Note(progress, discovery, trace, now, deadline, startupTimeout, firstDeadline, launched, child);
      now := Pass(now);
      if !discovery.Starting? && now >= deadline {
        StillStarting(trace, progress.feedbackReported, launched, child, firstDeadline, startupTimeout, deadline, debug, now);
        return Err(StartupTimedOut), trace, now;
      }
      ghost var checked, noted := now, trace;
      var done;
      done, r, trace, incompleteSince, now :=
        Act(discovery, debug, launched, child, trace, incompleteSince, now, progress.feedbackReported, firstDeadline, startupTimeout);
      if done { return; }
      var allowed := discovery.Absent? || discovery.Registered?;
      var followed;
      followed, trace, child, exited :=
        Follow(trace, launched, child, allowed, exited, now, progress.feedbackReported, progress.latestDiscoveryWasStarting,
               debug, firstDeadline, startupTimeout);
      if followed.Err? { return Err(followed.error), trace, now; }
      launched := followed.value;
      SameDeadline(noted, trace, firstDeadline, startupTimeout, deadline);
      now := Pass(now);
      var next := now + RETRY_DELAY;
      now := SleepUntil(now, if progress.latestDiscoveryWasStarting then next else Min(next, deadline));
      assert now >= checked + RETRY_DELAY || now >= deadline;
    }
  }
}
