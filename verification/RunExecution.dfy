/**
 * The run loop of the server: prepare, dispatch, settle and recover provider operations and run
 * tool calls (crates/morons-server/src/run_supervisor.rs).  Every answer of the store, the
 * provider, the tools and the cancellation signal is arbitrary.
 */
module RunExecution {
  import opened Basics
  import opened RunTrace

  const U64_MAX: nat := 0xFFFF_FFFF_FFFF_FFFF

  datatype ProviderError =
    | InvalidRequest | UnsupportedModel | DataUseRestricted | CredentialGenerationChanged
    | CredentialNotConfigured | CredentialReauthenticationRequired | CredentialStoreUnavailable
    | Transport | ResponseHeaderTimeout | StreamInactivityTimeout | TotalTimeout | ProviderCancelled
    | RedirectDenied | UnexpectedContentType | AuthenticationOrEntitlement | RateLimited | Unavailable
    | RequestRejected | ContextWindowRejected | ProviderExecutionFailed | MalformedCatalog
    | MalformedResponse | ResponseLimitExceeded | IncompleteResponse

  /** Whether the provider is known not to have acted on a request that failed with `error`. */
  function ProviderFailureState(error: ProviderError): FailureState
  {
    match error
    case DataUseRestricted => Failed
    case CredentialStoreUnavailable => Failed
    case CredentialReauthenticationRequired => Failed
    case AuthenticationOrEntitlement => Failed
    case RateLimited => Failed
    case Unavailable => Failed
    case RequestRejected => Failed
    case ContextWindowRejected => Failed
    case ProviderExecutionFailed => Failed
    case _ => Uncertain
  }

  function ErrorOf(error: ProviderError): Answer
  {
    ErrorAnswer(error.ProviderCancelled?, error.ContextWindowRejected?, ProviderFailureState(error))
  }

  function AnswerOf(outcome: Result<NormalizedTurn, ProviderError>): Answer
  {
    match outcome
    case Err(error) => ErrorOf(error)
    case Ok(Final) => TextAnswer
    case Ok(Tools) => ToolAnswer
    case Ok(Invalid) => MalformedAnswer
  }

  /** A store call: its value, or a persistence failure that aborts the run. */
  datatype Store<+T> = Done(value: T) | Broken
  {
    predicate IsFailure() { Broken? }
    function PropagateFailure<U>(): Store<U>
      requires Broken?
    {
      Broken
    }
    function Extract(): T
      requires Done?
    {
      value
    }
  }

  /** A store call that returns nothing. */
  datatype Effect = Recorded | Lost
  {
    predicate IsFailure() { Lost? }
    function PropagateFailure<U>(): Store<U>
      requires Lost?
    {
      Broken
    }
  }

  datatype LoadOutcome = Loaded(plan: bool, workingDirectory: bool) | LoadRefused
  datatype PrepareOutcome = PreparedNow | PrepareClosed | PrepareFailed
  datatype DispatchOutcome = MarkedDispatched | MarkedClosed | MarkedRestricted
  datatype TurnOutcome = CallsCommitted(calls: seq<nat>) | TurnInvalid
  datatype NormalizedTurn = Final | Tools | Invalid

  /** What became of the run when the supervisor's call returns without a persistence failure. */
  datatype Progress = Ended | StillRunning

  /** A run's record after a store call failed: nothing may follow. */
  predicate Aborted(m: Monitor)
  {
    m.over && m.aborted
  }

  /** A run's record after the supervisor has let go of it: over, with nothing left in flight. */
  predicate Concluded(m: Monitor)
  {
    m.over && m.open.None? && m.tool.None? && !m.aborted
  }

  class Ledger {
    ghost var trace: seq<Event>

    ghost predicate Valid()
      reads this
    {
      Legal(trace)
    }

    ghost function State(): Monitor
      requires Valid()
      reads this
    {
      After(trace)
    }

    constructor ()
      ensures Valid() && trace == [] && State() == START
    {
      trace := [];
    }

    ghost method Record(e: Event)
      requires Valid() && Allowed(State(), e)
      modifies this
      ensures Valid() && trace == old(trace) + [e] && State() == Next(old(State()), e)
    {
      LegalAppend(trace, e);
      trace := trace + [e];
    }

    /** One store call whose success has the effect `e` on record. */
    method Call(ghost e: Event) returns (r: Effect)
      requires Valid() && Allowed(State(), e) && !State().over
      modifies this
      ensures Valid()
      ensures r.Recorded? ==> trace == old(trace) + [e] && State() == Next(old(State()), e)
      ensures r.Lost? ==> Aborted(State())
    {
      var broken: bool := *;
      if broken {
        Record(StoreFailed);
        return Lost;
      }
      Record(e);
      return Recorded;
    }

    /** A store call without an effect on this run. */
    method Query() returns (r: Effect)
      requires Valid() && !State().over
      modifies this
      ensures Valid()
      ensures r.Recorded? ==> trace == old(trace) && State() == old(State())
      ensures r.Lost? ==> Aborted(State())
    {
      var broken: bool := *;
      if broken {
        Record(StoreFailed);
        return Lost;
      }
      return Recorded;
    }

    method Activate() returns (r: Store<bool>)
      requires Valid() && State() == START
      modifies this
      ensures Valid()
      ensures r.Done? ==> State() == Next(START, Activated(r.value))
      ensures r.Broken? ==> Aborted(State())
    {
      var active: bool := *;
      var call := Call(Activated(active));
      return if call.Recorded? then Done(active) else Broken;
    }

    method LoadContext() returns (r: Store<LoadOutcome>)
      requires Valid() && !State().over
      modifies this
      ensures Valid()
      ensures r.Done? ==> trace == old(trace)
      ensures r.Broken? ==> Aborted(State())
    {
      var outcome: LoadOutcome := *;
      var call := Query();
      return if call.Recorded? then Done(outcome) else Broken;
    }

    method PrepareProviderOperation() returns (r: Store<PrepareOutcome>)
      requires Valid() && BetweenTurns(State()) && !State().recovering
      modifies this
      ensures Valid()
      ensures r.Done? ==>
        match r.value
        case PreparedNow => State() == Next(old(State()), Prepared(Coding, old(State()).nextOp))
        case PrepareClosed => State() == Next(old(State()), PrepareRefused)
        case PrepareFailed => trace == old(trace) && State() == old(State())
      ensures r.Broken? ==> Aborted(State())
    {
      var outcome: PrepareOutcome := *;
      var call;
      match outcome {
        case PreparedNow => call := Call(Prepared(Coding, State().nextOp));
        case PrepareClosed => call := Call(PrepareRefused);
        case PrepareFailed => call := Query();
      }
      return if call.Recorded? then Done(outcome) else Broken;
    }

    method MarkProviderDispatched(ghost op: nat) returns (r: Store<DispatchOutcome>)
      requires Valid() && OpenKindAt(State(), op, Coding, IsPrepared) && Has(State(), None)
      modifies this
      ensures Valid()
      ensures r.Done? ==>
        match r.value
        case MarkedDispatched => State() == Next(old(State()), RunTrace.Dispatched(op))
        case MarkedClosed => State() == Next(old(State()), DispatchClosed(op))
        case MarkedRestricted => State() == Next(old(State()), DispatchRestricted(op))
      ensures r.Broken? ==> Aborted(State())
    {
      var outcome: DispatchOutcome := *;
      var call;
      match outcome {
        case MarkedDispatched => call := Call(RunTrace.Dispatched(op));
        case MarkedClosed => call := Call(DispatchClosed(op));
        case MarkedRestricted => call := Call(DispatchRestricted(op));
      }
      return if call.Recorded? then Done(outcome) else Broken;
    }

    method CompleteProviderToolTurn(ghost op: nat) returns (r: Store<TurnOutcome>)
      requires Valid() && OpenKindAt(State(), op, Coding, IsExecuted) && Has(State(), Some(ToolAnswer))
      modifies this
      ensures Valid()
      ensures r.Done? ==>
        match r.value
        case CallsCommitted(calls) => State() == Next(old(State()), TurnCompleted(op, calls))
        case TurnInvalid => State() == old(State())
      ensures r.Broken? ==> Aborted(State())
    {
      var outcome: TurnOutcome := *;
      var call;
      match outcome {
        case CallsCommitted(calls) => call := Call(TurnCompleted(op, calls));
        case TurnInvalid => call := Call(TurnRefused(op));
      }
      return if call.Recorded? then Done(outcome) else Broken;
    }

    /** Ends the run as stopped, with the operation in flight if there is one. */
    method FinishRunStopped(ghost settles: Option<nat>) returns (r: Effect)
      requires Valid() && !State().aborted && Allowed(State(), RunStopped(settles))
      modifies this
      ensures Valid()
      ensures r.Recorded? ==> Concluded(State())
      ensures r.Lost? ==> Aborted(State())
    {
      r := Call(RunStopped(settles));
    }

    /** Ends the run as failed, with the operation in flight if there is one. */
    method FinishRunFailure(ghost settles: Option<nat>, state: FailureState) returns (r: Effect)
      requires Valid() && !State().aborted && Allowed(State(), RunFailed(settles, state))
      modifies this
      ensures Valid()
      ensures r.Recorded? ==> Concluded(State()) && State().justFailed
      ensures r.Lost? ==> Aborted(State())
    {
      r := Call(RunFailed(settles, state));
    }

    method CompleteRunSuccess(ghost op: nat) returns (r: Effect)
      requires Valid() && !State().aborted && State().tool.None? && Allowed(State(), RunSucceeded(op))
      modifies this
      ensures Valid()
      ensures r.Recorded? ==> Concluded(State())
      ensures r.Lost? ==> Aborted(State())
    {
      r := Call(RunSucceeded(op));
    }

    /** The provider is called on a dispatched operation. */
    ghost method Execute(op: nat, kind: Kind)
      requires Valid() && !State().over && State().open == Some(Open(op, kind, IsDispatched, None))
      modifies this
      ensures Valid() && State() == old(State()).(open := Some(Open(op, kind, IsExecuted, None)))
    {
      Record(Executed(op));
    }

    /** The provider has answered. */
    ghost method Answer(op: nat, kind: Kind, stage: Stage, answer: Answer)
      requires Valid() && !State().over && State().open == Some(Open(op, kind, stage, None))
      requires stage.IsExecuted? || (stage.IsPrepared? && answer.ErrorAnswer?)
      modifies this
      ensures Valid() && State() == old(State()).(open := Some(Open(op, kind, stage, Some(answer))))
    {
      Record(Answered(op, answer));
    }

    /** Whether the store could settle a rejected context so that the run may compact and go on. */
    method SettleContextRejection(ghost op: nat) returns (r: Store<bool>)
      requires Valid() && OpenKindAt(State(), op, Coding, IsExecuted) && Rejected(State())
      modifies this
      ensures Valid()
      ensures r.Done? ==> State() == if r.value then Next(old(State()), RejectionSettled(op)) else old(State())
      ensures r.Broken? ==> Aborted(State())
    {
      var settled: bool := *;
      var call;
      if settled {
        call := Call(RejectionSettled(op));
      } else {
        call := Call(RejectionUnsettled(op));
      }
      return if call.Recorded? then Done(settled) else Broken;
    }
  }

  method IsCancelled() returns (cancelled: bool)
  {
    cancelled := *;
  }

  /** One streamed response: numbers every non-empty delta on from the run's last one. */
  method PublishDeltas(ledger: Ledger, ghost op: nat, deltaSequence: nat) returns (last: nat)
    requires ledger.Valid() && OpenKindAt(ledger.State(), op, Coding, IsExecuted) && Has(ledger.State(), None)
    requires deltaSequence == ledger.State().deltas <= U64_MAX
    modifies ledger
    ensures ledger.Valid() && ledger.State() == old(ledger.State()).(deltas := last)
    ensures deltaSequence <= last <= U64_MAX
  {
    last := deltaSequence;
    var stream: seq<bool> := *;
    for i := 0 to |stream|
      invariant ledger.Valid() && ledger.State() == old(ledger.State()).(deltas := last)
      invariant deltaSequence <= last <= U64_MAX
    {
      var empty := stream[i];
      if !empty && last < U64_MAX {
        last := last + 1;
        ledger.Record(DeltaPublished(last));
      }
    }
  }

  /** Ends the run after a failure found between turns, when no effect is in flight. */
  method FailBetweenTurns(ledger: Ledger) returns (r: Store<Progress>)
    requires ledger.Valid() && BetweenTurns(ledger.State()) && !ledger.State().aborted
    modifies ledger
    ensures ledger.Valid()
    ensures r.Done? ==> r.value.Ended? && Concluded(ledger.State())
    ensures r.Broken? ==> Aborted(ledger.State())
  {
    var other: bool := *;
    if other {
      ledger.Record(StoreFailed);
      return Broken;
    }
    :- ledger.Call(RunFailed(None, Failed));
    return Done(Ended);
  }

  /**
   * Summarizes the transcript so that a run may continue within its context.  Whatever happens, the
   * compaction operation is settled: as undispatched exactly when the provider was never called.
   */
  method ExecuteCompaction(ledger: Ledger) returns (r: Store<Result<(), ProviderError>>)
    requires ledger.Valid() && BetweenTurns(ledger.State()) && !ledger.State().aborted
    modifies ledger
    ensures ledger.Valid()
    ensures r.Broken? ==> Aborted(ledger.State())
    ensures r.Done? ==>
      && BetweenTurns(ledger.State()) && !ledger.State().aborted
      && ledger.State().deltas == old(ledger.State()).deltas
    ensures r.Done? && r.value.Ok? ==> !ledger.State().recovering && ledger.State().turns == old(ledger.State()).turns + 1
  {
    ghost var op := ledger.State().nextOp;
    :- ledger.Query();
    :- ledger.Call(Prepared(Compaction, op));
    var built: Result<(), ProviderError> := *;
    if built.Err? {
      :- ledger.Call(CompactionFailed(op, Undispatched));
      return Done(built);
    }
    :- ledger.Query();
    var prepared: Result<(), ProviderError> := *;
    if prepared.Err? {
      :- ledger.Call(CompactionFailed(op, Undispatched));
      return Done(prepared);
    }
    var restricted: bool := *;
    if restricted {
      :- ledger.Call(DispatchRestricted(op));
      :- ledger.Call(CompactionFailed(op, Undispatched));
      return Done(Err(DataUseRestricted));
    }
    :- ledger.Call(RunTrace.Dispatched(op));
    r := ExecuteSummary(ledger, op);
  }

  /** Calls the provider on a dispatched compaction and settles what comes back. */
  method ExecuteSummary(ledger: Ledger, ghost op: nat) returns (r: Store<Result<(), ProviderError>>)
    requires ledger.Valid() && OpenKindAt(ledger.State(), op, Compaction, IsDispatched) && ledger.State().started
    requires Has(ledger.State(), None)
    requires var m := ledger.State(); !m.aborted && m.owed == [] && m.tool.None? && !m.stopped
    modifies ledger
    ensures ledger.Valid()
    ensures r.Broken? ==> Aborted(ledger.State())
    ensures r.Done? ==>
      && BetweenTurns(ledger.State()) && !ledger.State().aborted
      && ledger.State().deltas == old(ledger.State()).deltas
    ensures r.Done? && r.value.Ok? ==> !ledger.State().recovering && ledger.State().turns == old(ledger.State()).turns + 1
  {
    hide Ledger.Valid, Ledger.State;
    ledger.Execute(op, Compaction);
    var outcome: Result<(), ProviderError> := *;
    if outcome.Err? {
      ledger.Answer(op, Compaction, IsExecuted, ErrorOf(outcome.error));
      :- ledger.Call(CompactionFailed(op,
        if outcome.error.ContextWindowRejected? then ContextRejected else UncertainCompaction));
      return Done(outcome);
    }
    var assistant: Result<(), ProviderError> := *;
    ledger.Answer(op, Compaction, IsExecuted, if assistant.Err? then MalformedAnswer else TextAnswer);
    if assistant.Err? {
      :- ledger.Call(CompactionFailed(op, UncertainCompaction));
      return Done(assistant);
    }
    var tooLarge: bool := *;
    if tooLarge {
      :- ledger.Call(CompactionRefused(op));
      :- ledger.Call(CompactionFailed(op, UncertainCompaction));
      return Done(Err(ResponseLimitExceeded));
    }
    :- ledger.Call(CompactionCompleted(op));
    return Done(Ok(()));
  }

  /** The run is free to start the first of the calls it owes results for. */
  predicate BetweenTools(m: Monitor)
  {
    m.started && !m.over && !m.aborted && m.open.None? && m.tool.None? && !m.stopped
  }

  /**
   * Runs the committed calls in order.  `true` means that the run must not continue; `false` that
   * every call has its result.
   */
  method ExecuteToolCalls(ledger: Ledger, calls: seq<nat>) returns (r: Store<bool>)
    requires ledger.Valid() && BetweenTools(ledger.State()) && ledger.State().owed == calls
    modifies ledger
    ensures ledger.Valid()
    ensures r.Broken? ==> Aborted(ledger.State())
    ensures r == Done(true) ==> Concluded(ledger.State())
    ensures r == Done(false) ==> ledger.State() == old(ledger.State()).(owed := [])
  {
    for i := 0 to |calls|
      invariant ledger.Valid() && ledger.State() == old(ledger.State()).(owed := calls[i..])
    {
      assert calls[i..][1..] == calls[i + 1..];
      var terminal :- ExecuteToolCall(ledger, calls[i]);
      if terminal {
        return Done(true);
      }
    }
    return Done(false);
  }

  method ExecuteToolCall(ledger: Ledger, call: nat) returns (r: Store<bool>)
    requires ledger.Valid() && BetweenTools(ledger.State())
    requires ledger.State().owed != [] && ledger.State().owed[0] == call
    modifies ledger
    ensures ledger.Valid()
    ensures r.Broken? ==> Aborted(ledger.State())
    ensures r == Done(true) ==> Concluded(ledger.State())
    ensures r == Done(false) ==> ledger.State() == old(ledger.State()).(owed := old(ledger.State()).owed[1..])
  {
    var refused: bool := *;
    :- ledger.Call(ToolPrepared(call));
    var cancelled := IsCancelled();
    if cancelled {
      :- ledger.Call(ToolCompleted(call, ToolCancelled));
      :- ledger.Call(RunStopped(None));
      return Done(true);
    }
    if refused {
      :- ledger.Call(ToolRefused(call));
      :- ledger.Call(ToolCompleted(call, ToolFinished));
      return Done(false);
    }
    r := RunTool(ledger, call);
  }

  /** Dispatches a prepared call, runs the tool and records its result. */
  method RunTool(ledger: Ledger, call: nat) returns (r: Store<bool>)
    requires ledger.Valid() && ToolAt(ledger.State(), call, IsPrepared)
    requires var m := ledger.State(); m.started && !m.aborted && m.open.None? && !m.stopped
    modifies ledger
    ensures ledger.Valid()
    ensures r.Broken? ==> Aborted(ledger.State())
    ensures r == Done(true) ==> Concluded(ledger.State())
    ensures r == Done(false) ==>
      ledger.State() == old(ledger.State()).(owed := old(ledger.State()).owed[1..], tool := None)
  {
    var outcome: ToolOutcome := *;
    :- ledger.Call(ToolDispatched(call));
    :- ledger.Call(ToolExecuted(call));
    :- ledger.Call(ToolCompleted(call, outcome));
    if outcome.ToolCancelled? {
      :- ledger.Call(RunStopped(None));
    }
    return Done(!outcome.ToolFinished?);
  }

  /** A run's record when the loop is about to start another turn. */
  predicate AtLoopHead(m: Monitor, turns: nat, deltaSequence: nat, recovering: bool)
  {
    && BetweenTurns(m) && !m.aborted && m.turns == turns
    && m.deltas == deltaSequence <= U64_MAX && m.recovering == recovering
  }

  datatype Turn = TurnEnded | NextTurn(deltaSequence: nat, recovering: bool)

  /** Runs a summary when the context asks for one; `None` means that a coding turn may follow. */
  method CompactIfPlanned(ledger: Ledger, plan: bool, ghost turn: nat, deltaSequence: nat, recovering: bool)
      returns (r: Store<Option<Turn>>)
    requires ledger.Valid() && AtLoopHead(ledger.State(), turn, deltaSequence, recovering)
    modifies ledger
    ensures ledger.Valid()
    ensures r.Broken? ==> Aborted(ledger.State())
    ensures r == Done(None) ==> ledger.trace == old(ledger.trace) && !recovering
    ensures r == Done(Some(TurnEnded)) ==> Concluded(ledger.State())
    ensures r.Done? && r.value.Some? && r.value.value.NextTurn? ==>
      AtLoopHead(ledger.State(), turn + 1, r.value.value.deltaSequence, r.value.value.recovering)
  {
    if recovering && !plan {
      :- ledger.Call(RunFailed(None, Failed));
      return Done(Some(TurnEnded));
    }
    if !plan {
      return Done(None);
    }
    var compacted :- ExecuteCompaction(ledger);
    if compacted.Ok? {
      return Done(Some(NextTurn(deltaSequence, false)));
    }
    if compacted.error.ProviderCancelled? {
      :- ledger.Call(RunStopped(None));
      return Done(Some(TurnEnded));
    }
    var state := if compacted.error.DataUseRestricted? || compacted.error.ContextWindowRejected? then Failed else Uncertain;
    :- ledger.Call(RunFailed(None, state));
    return Done(Some(TurnEnded));
  }

  /** Prepares one coding operation and brings it to the point where the provider may be called. */
  method DispatchTurn(ledger: Ledger, ghost op: nat) returns (r: Store<bool>)
    requires ledger.Valid() && BetweenTurns(ledger.State()) && !ledger.State().aborted
    requires !ledger.State().recovering && op == ledger.State().nextOp
    modifies ledger
    ensures ledger.Valid()
    ensures r.Broken? ==> Aborted(ledger.State())
    ensures r == Done(true) ==>
      && OpenKindAt(ledger.State(), op, Coding, IsDispatched)
      && ledger.State() == old(ledger.State()).(nextOp := op + 1, open := Some(Open(op, Coding, IsDispatched, None)))
    ensures r == Done(false) ==> Concluded(ledger.State())
  {
    hide Ledger.Valid, Ledger.State;
    var request: Result<(), ProviderError> := *;
    if request.Err? {
      :- ledger.FinishRunFailure(None, Failed);
      return Done(false);
    }
    var prepared :- ledger.PrepareProviderOperation();
    match prepared {
      case PrepareFailed =>
        var failed :- FailBetweenTurns(ledger);
        return Done(false);
      case PrepareClosed =>
        return Done(false);
      case PreparedNow =>
    }
    r := MarkDispatched(ledger, op);
  }

  /** Brings a prepared coding operation to the point where the provider may be called. */
  method MarkDispatched(ledger: Ledger, ghost op: nat) returns (r: Store<bool>)
    requires ledger.Valid() && OpenKindAt(ledger.State(), op, Coding, IsPrepared) && Has(ledger.State(), None)
    requires var m := ledger.State(); m.started && !m.aborted && m.owed == [] && m.tool.None? && !m.stopped
    modifies ledger
    ensures ledger.Valid()
    ensures r.Broken? ==> Aborted(ledger.State())
    ensures r == Done(true) ==> ledger.State() == old(ledger.State()).(open := Some(Open(op, Coding, IsDispatched, None)))
    ensures r == Done(false) ==> Concluded(ledger.State())
  {
    hide Ledger.Valid, Ledger.State;
    var cancelled := IsCancelled();
    if cancelled {
      :- ledger.FinishRunStopped(Some(op));
      return Done(false);
    }
    :- ledger.Query();
    var dispatch: Result<(), ProviderError> := *;
    if dispatch.Err? {
      ledger.Answer(op, Coding, IsPrepared, ErrorOf(dispatch.error));
      if dispatch.error.ProviderCancelled? {
        :- ledger.FinishRunStopped(Some(op));
      } else {
        :- ledger.FinishRunFailure(Some(op), Failed);
      }
      return Done(false);
    }
    var marked :- ledger.MarkProviderDispatched(op);
    match marked {
      case MarkedDispatched =>
        return Done(true);
      case MarkedClosed =>
        return Done(false);
      case MarkedRestricted =>
        :- ledger.FinishRunFailure(Some(op), Failed);
        return Done(false);
    }
  }

  /** Calls the provider on a dispatched operation and settles what comes back. */
  method ExecuteTurn(ledger: Ledger, ghost op: nat, workingDirectory: bool, deltaSequence: nat) returns (r: Store<Turn>)
    requires ledger.Valid() && OpenKindAt(ledger.State(), op, Coding, IsDispatched) && Has(ledger.State(), None)
    requires var m := ledger.State(); m.started && !m.aborted && m.owed == [] && m.tool.None? && !m.stopped && !m.recovering
    requires deltaSequence == ledger.State().deltas <= U64_MAX
    modifies ledger
    ensures ledger.Valid()
    ensures r.Broken? ==> Aborted(ledger.State())
    ensures r == Done(TurnEnded) ==> Concluded(ledger.State())
    ensures r.Done? && r.value.NextTurn? ==>
      AtLoopHead(ledger.State(), old(ledger.State()).turns + 1, r.value.deltaSequence, r.value.recovering)
  {
    hide Ledger.Valid, Ledger.State;
    ledger.Execute(op, Coding);
    var last := PublishDeltas(ledger, op, deltaSequence);
    var outcome: Result<NormalizedTurn, ProviderError> := *;
    ledger.Answer(op, Coding, IsExecuted, AnswerOf(outcome));
    match outcome {
      case Err(error) =>
        var ended :- SettleProviderError(ledger, op, error);
        return Done(if ended then TurnEnded else NextTurn(last, true));
      case Ok(Final) =>
        :- ledger.CompleteRunSuccess(op);
        return Done(TurnEnded);
      case Ok(Invalid) =>
        :- ledger.FinishRunFailure(Some(op), Failed);
        return Done(TurnEnded);
      case Ok(Tools) =>
    }
    r := FinishToolTurn(ledger, op, workingDirectory, last);
  }

  /** Commits a turn of tool calls and answers every one of them. */
  method FinishToolTurn(ledger: Ledger, ghost op: nat, workingDirectory: bool, last: nat) returns (r: Store<Turn>)
    requires ledger.Valid() && OpenKindAt(ledger.State(), op, Coding, IsExecuted) && Has(ledger.State(), Some(ToolAnswer))
    requires var m := ledger.State(); m.started && !m.aborted && m.owed == [] && m.tool.None? && !m.stopped && !m.recovering
    requires last == ledger.State().deltas <= U64_MAX
    modifies ledger
    ensures ledger.Valid()
    ensures r.Broken? ==> Aborted(ledger.State())
    ensures r == Done(TurnEnded) ==> Concluded(ledger.State())
    ensures r.Done? && r.value.NextTurn? ==>
      AtLoopHead(ledger.State(), old(ledger.State()).turns + 1, r.value.deltaSequence, r.value.recovering)
  {
    hide Ledger.Valid, Ledger.State;
    var completed :- ledger.CompleteProviderToolTurn(op);
    if completed.TurnInvalid? {
      :- ledger.FinishRunFailure(Some(op), Failed);
      return Done(TurnEnded);
    }
    if !workingDirectory {
      ledger.Record(StoreFailed);
      return Broken;
    }
    var terminal :- ExecuteToolCalls(ledger, completed.calls);
    if terminal {
      return Done(TurnEnded);
    }
    var cancelled := IsCancelled();
    if cancelled {
      :- ledger.FinishRunStopped(None);
      return Done(TurnEnded);
    }
    return Done(NextTurn(last, false));
  }

  /** `false` means that the rejected context was settled and the run goes on to compact it. */
  method SettleProviderError(ledger: Ledger, ghost op: nat, error: ProviderError) returns (r: Store<bool>)
    requires ledger.Valid() && OpenKindAt(ledger.State(), op, Coding, IsExecuted)
    requires Has(ledger.State(), Some(ErrorOf(error)))
    requires var m := ledger.State(); m.started && !m.aborted && m.owed == [] && m.tool.None? && !m.stopped
    modifies ledger
    ensures ledger.Valid()
    ensures r.Broken? ==> Aborted(ledger.State())
    ensures r == Done(true) ==> Concluded(ledger.State())
    ensures r == Done(false) ==>
      && error.ContextWindowRejected?
      && ledger.State() == old(ledger.State()).(open := None, recovering := true, turns := old(ledger.State()).turns + 1)
  {
    hide Ledger.Valid, Ledger.State;
    if error.ContextWindowRejected? {
      var settled :- ledger.SettleContextRejection(op);
      if settled {
        return Done(false);
      }
    }
    if error.ProviderCancelled? {
      :- ledger.FinishRunStopped(Some(op));
      return Done(true);
    }
    :- ledger.FinishRunFailure(Some(op), ProviderFailureState(error));
    var diagnostic: bool := *;
    if diagnostic {
      ledger.Record(DiagnosticPublished);
    }
    return Done(true);
  }

  /**
   * Runs a run for at most `turns` passes of its loop, each of which completes one operation.  The
   * record it leaves obeys the protocol;
   * unless a store call failed, an ended run is over with nothing in flight.
   */
  method ExecuteRun(ledger: Ledger, turns: nat) returns (r: Store<Progress>)
    requires ledger.Valid() && ledger.trace == []
    modifies ledger
    ensures ledger.Valid()
    ensures r == Done(Ended) ==> Concluded(ledger.State())
    ensures r == Done(StillRunning) ==>
      BetweenTurns(ledger.State()) && !ledger.State().aborted && ledger.State().turns == turns
    ensures r.Broken? ==> Aborted(ledger.State())
  {
    var active :- ledger.Activate();
    if !active {
      return Done(Ended);
    }
    var deltaSequence, recovering := 0, false;
    for turn := 0 to turns
      invariant ledger.Valid() && AtLoopHead(ledger.State(), turn, deltaSequence, recovering)
    {
      var cancelled := IsCancelled();
      if cancelled {
        :- ledger.FinishRunStopped(None);
        return Done(Ended);
      }
      :- ledger.Query();
      var context :- ledger.LoadContext();
      if context.LoadRefused? {
        r := FailBetweenTurns(ledger);
        return;
      }
      var compaction :- CompactIfPlanned(ledger, context.plan, turn, deltaSequence, recovering);
      if compaction.Some? {
        if compaction.value.TurnEnded? {
          return Done(Ended);
        }
        deltaSequence, recovering := compaction.value.deltaSequence, compaction.value.recovering;
        continue;
      }
      ghost var op := ledger.State().nextOp;
      var dispatched :- DispatchTurn(ledger, op);
      if !dispatched {
        return Done(Ended);
      }
      var turned :- ExecuteTurn(ledger, op, context.workingDirectory, deltaSequence);
      if turned.TurnEnded? {
        return Done(Ended);
      }
      deltaSequence, recovering := turned.deltaSequence, turned.recovering;
    }
    return Done(StillRunning);
  }
}
