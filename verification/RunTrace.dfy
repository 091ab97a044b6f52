/**
 * The durable and external effects of one agent run, in the order they happen, and the protocol
 * they obey (crates/morons-server/src/run_supervisor.rs).  The session store is an abstract ledger:
 * each call appends the effect it had, or a failure that aborts the run.
 */
module RunTrace {
  import opened Basics

  datatype Kind = Coding | Compaction

  datatype FailureState = Failed | Uncertain

  datatype CompactionFailure = Undispatched | ContextRejected | UncertainCompaction

  datatype ToolOutcome = ToolFinished | ToolCancelled | ToolStopsRun

  /** What a provider call came to, before anything is settled: words, tool calls, or an error. */
  datatype Answer =
    | TextAnswer
    | ToolAnswer
    | MalformedAnswer
    | ErrorAnswer(cancelled: bool, rejected: bool, state: FailureState)

  datatype Event =
    | Activated(active: bool)
    | Prepared(kind: Kind, op: nat)
    | PrepareRefused
    | Dispatched(op: nat)
    | DispatchClosed(op: nat)
    | DispatchRestricted(op: nat)
    | Executed(op: nat)
    | DeltaPublished(sequence: nat)
    | Answered(op: nat, answer: Answer)
    | RejectionSettled(op: nat)
    | RejectionUnsettled(op: nat)
    | TurnCompleted(op: nat, calls: seq<nat>)
    | TurnRefused(op: nat)
    | CompactionFailed(op: nat, failure: CompactionFailure)
    | CompactionRefused(op: nat)
    | CompactionCompleted(op: nat)
    | ToolPrepared(call: nat)
    | ToolDispatched(call: nat)
    | ToolRefused(call: nat)
    | ToolExecuted(call: nat)
    | ToolCompleted(call: nat, outcome: ToolOutcome)
    | RunStopped(settles: Option<nat>)
    | RunFailed(settles: Option<nat>, state: FailureState)
    | RunSucceeded(op: nat)
    | DiagnosticPublished
    | StoreFailed

  // ----- the protocol, as the state it leaves -----

  datatype Stage = IsPrepared | IsDispatched | IsExecuted

  datatype Open = Open(op: nat, kind: Kind, stage: Stage, answer: Option<Answer>)

  /**
   * `open` is the provider operation in flight, `owed` the committed tool calls without a result,
   * `tool` the one being run, `recovering` whether a rejected context awaits a compaction, and
   * `turns` how many operations have ended in a way that lets the run go on.
   */
  datatype Monitor = Monitor(
    started: bool, nextOp: nat, open: Option<Open>, recovering: bool, deltas: nat,
    owed: seq<nat>, tool: Option<Stage>, stopped: bool,
    over: bool, justFailed: bool, aborted: bool, turns: nat)

  const START := Monitor(false, 0, None, false, 0, [], None, false, false, false, false, 0)

  predicate BetweenTurns(m: Monitor)
  {
    m.started && !m.over && m.open.None? && m.owed == [] && m.tool.None? && !m.stopped
  }

  predicate OpenAt(m: Monitor, op: nat, stage: Stage)
  {
    !m.over && m.open.Some? && m.open.value.op == op && m.open.value.stage == stage
  }

  predicate OpenKindAt(m: Monitor, op: nat, kind: Kind, stage: Stage)
  {
    OpenAt(m, op, stage) && m.open.value.kind == kind
  }

  /** The operation in flight has the answer `answer`. */
  predicate Has(m: Monitor, answer: Option<Answer>)
  {
    m.open.Some? && m.open.value.answer == answer
  }

  predicate Rejected(m: Monitor)
  {
    m.open.Some? && m.open.value.answer.Some? && m.open.value.answer.value.ErrorAnswer? && m.open.value.answer.value.rejected
  }

  /** A run may be stopped with an operation that never got an answer, or was cancelled. */
  predicate MayStop(o: Open)
  {
    match o.answer
    case None => o.stage.IsPrepared?
    case Some(a) => a.ErrorAnswer? && a.cancelled
  }

  /** A run fails with an operation as its answer says: as failed, or as uncertain once it was sent. */
  predicate MayFail(o: Open, state: FailureState)
  {
    match o.answer
    case None => false
    case Some(TextAnswer) => false
    case Some(ErrorAnswer(cancelled, _, told)) => !cancelled && state == if o.stage.IsExecuted? then told else Failed
    case Some(_) => state.Failed?
  }

  predicate CompactionFails(o: Open, failure: CompactionFailure)
  {
    match failure
    case Undispatched => o.stage.IsPrepared?
    case ContextRejected => o.stage.IsExecuted? && o.answer.Some? && o.answer.value.ErrorAnswer? && o.answer.value.rejected
    case UncertainCompaction =>
      o.stage.IsExecuted? && o.answer.Some? && !(o.answer.value.ErrorAnswer? && o.answer.value.rejected)
  }

  predicate ToolAt(m: Monitor, call: nat, stage: Stage)
  {
    !m.over && m.tool == Some(stage) && m.owed != [] && m.owed[0] == call
  }

  function OpenId(m: Monitor): Option<nat>
  {
    if m.open.Some? then Some(m.open.value.op) else None
  }

  predicate Allowed(m: Monitor, e: Event)
  {
    match e
    case Activated(_) => m == START
    case Prepared(kind, op) => BetweenTurns(m) && op == m.nextOp && (kind.Coding? ==> !m.recovering)
    case PrepareRefused => BetweenTurns(m) && !m.recovering
    case Dispatched(op) => OpenAt(m, op, IsPrepared) && Has(m, None)
    case DispatchClosed(op) => OpenKindAt(m, op, Coding, IsPrepared) && Has(m, None)
    case DispatchRestricted(op) => OpenAt(m, op, IsPrepared) && Has(m, None)
    case Executed(op) => OpenAt(m, op, IsDispatched) && Has(m, None)
    case DeltaPublished(sequence) =>
      m.open.Some? && OpenKindAt(m, m.open.value.op, Coding, IsExecuted) && Has(m, None) && sequence == m.deltas + 1
    case Answered(op, answer) =>
      Has(m, None) && (OpenAt(m, op, IsExecuted) || (OpenAt(m, op, IsPrepared) && answer.ErrorAnswer?))
    case RejectionSettled(op) => OpenKindAt(m, op, Coding, IsExecuted) && Rejected(m)
    case RejectionUnsettled(op) => OpenKindAt(m, op, Coding, IsExecuted) && Rejected(m)
    case TurnCompleted(op, _) => OpenKindAt(m, op, Coding, IsExecuted) && Has(m, Some(ToolAnswer))
    case TurnRefused(op) => OpenKindAt(m, op, Coding, IsExecuted) && Has(m, Some(ToolAnswer))
    case CompactionFailed(op, failure) =>
      OpenKindAt(m, op, Compaction, if failure.Undispatched? then IsPrepared else IsExecuted) && CompactionFails(m.open.value, failure)
    case CompactionRefused(op) => OpenKindAt(m, op, Compaction, IsExecuted) && Has(m, Some(TextAnswer))
    case CompactionCompleted(op) => OpenKindAt(m, op, Compaction, IsExecuted) && Has(m, Some(TextAnswer))
    case ToolPrepared(call) =>
      m.started && !m.over && !m.stopped && m.open.None? && m.tool.None? && m.owed != [] && m.owed[0] == call
    case ToolDispatched(call) => ToolAt(m, call, IsPrepared)
    case ToolRefused(call) => ToolAt(m, call, IsPrepared)
    case ToolExecuted(call) => ToolAt(m, call, IsDispatched)
    case ToolCompleted(call, outcome) =>
      ToolAt(m, call, IsExecuted) || (ToolAt(m, call, IsPrepared) && !outcome.ToolStopsRun?)
    case RunStopped(settles) =>
      m.started && !m.over && settles == OpenId(m) && m.tool.None? && (m.owed == [] || m.stopped)
      && (m.open.Some? ==> MayStop(m.open.value))
    case RunFailed(settles, state) =>
      m.started && !m.over && settles == OpenId(m) && m.tool.None? && m.owed == [] && !m.stopped
      && (m.open.Some? ==> MayFail(m.open.value, state))
    case RunSucceeded(op) => OpenKindAt(m, op, Coding, IsExecuted) && Has(m, Some(TextAnswer))
    case DiagnosticPublished => m.justFailed
    case StoreFailed => !m.over
  }

  function Next(m: Monitor, e: Event): Monitor
    requires Allowed(m, e)
  {
    match e
    case Activated(active) => m.(started := true, over := !active)
    case Prepared(kind, op) => m.(nextOp := op + 1, open := Some(Open(op, kind, IsPrepared, None)))
    case PrepareRefused => m.(over := true)
    case Dispatched(op) => m.(open := Some(m.open.value.(stage := IsDispatched)))
    case DispatchClosed(op) => m.(open := None, over := true)
    case DispatchRestricted(op) => m.(open := Some(m.open.value.(answer := Some(ErrorAnswer(false, false, Failed)))))
    case Executed(op) => m.(open := Some(m.open.value.(stage := IsExecuted)))
    case DeltaPublished(sequence) => m.(deltas := sequence)
    case Answered(op, answer) => m.(open := Some(m.open.value.(answer := Some(answer))))
    case RejectionSettled(op) => m.(open := None, recovering := true, turns := m.turns + 1)
    case RejectionUnsettled(op) => m
    case TurnCompleted(op, calls) => m.(open := None, owed := calls, turns := m.turns + 1)
    case TurnRefused(op) => m
    case CompactionFailed(op, _) => m.(open := None)
    case CompactionRefused(op) => m
    case CompactionCompleted(op) => m.(open := None, recovering := false, turns := m.turns + 1)
    case ToolPrepared(call) => m.(tool := Some(IsPrepared))
    case ToolDispatched(call) => m.(tool := Some(IsDispatched))
    case ToolRefused(call) => m
    case ToolExecuted(call) => m.(tool := Some(IsExecuted))
    case ToolCompleted(call, outcome) =>
      m.(tool := None, owed := m.owed[1..], stopped := outcome.ToolCancelled?, over := outcome.ToolStopsRun?)
    case RunStopped(_) => m.(open := None, over := true)
    case RunFailed(_, _) => m.(open := None, over := true, justFailed := true)
    case RunSucceeded(op) => m.(open := None, over := true)
    case DiagnosticPublished => m.(justFailed := false)
    case StoreFailed => m.(over := true, aborted := true)
  }

  // ----- whole runs -----

  function Replay(t: seq<Event>): Option<Monitor>
  {
    if t == [] then Some(START)
    else
      var e := t[|t| - 1];
      match Replay(t[..|t| - 1])
      case None => None
      case Some(m) => if Allowed(m, e) then Some(Next(m, e)) else None
  }

  predicate Legal(t: seq<Event>)
  {
    Replay(t).Some?
  }

  function After(t: seq<Event>): Monitor
    requires Legal(t)
  {
    Replay(t).value
  }

  lemma {:induction false} LegalAppend(t: seq<Event>, e: Event)
    requires Legal(t) && Allowed(After(t), e)
    ensures Legal(t + [e]) && After(t + [e]) == Next(After(t), e)
  {
    hide Allowed, Next;
    assert (t + [e])[..|t|] == t;
  }

  lemma {:induction false} LegalLast(t: seq<Event>)
    requires Legal(t) && t != []
    ensures var before, e := t[..|t| - 1], t[|t| - 1];
      Legal(before) && Allowed(After(before), e) && After(t) == Next(After(before), e)
  {
    hide Allowed, Next;
  }

  lemma {:induction false} LegalPrefix(t: seq<Event>, n: nat)
    requires Legal(t) && n <= |t|
    ensures Legal(t[..n])
    decreases |t|
  {
    hide Allowed, Next;
    if n < |t| {
      LegalPrefix(t[..|t| - 1], n);
      assert t[..|t| - 1][..n] == t[..n];
    } else {
      assert t[..n] == t;
    }
  }

  lemma {:induction false} LegalAt(t: seq<Event>, i: nat)
    requires Legal(t) && i < |t|
    ensures Legal(t[..i]) && Legal(t[..i + 1])
    ensures Allowed(After(t[..i]), t[i]) && After(t[..i + 1]) == Next(After(t[..i]), t[i])
  {
    hide Allowed, Next;
    LegalPrefix(t, i);
    LegalPrefix(t, i + 1);
    assert t[..i + 1][..i] == t[..i];
  }

  // ----- provider operations -----

  predicate Settles(e: Event, op: nat)
  {
    match e
    case DispatchClosed(o) => o == op
    case RejectionSettled(o) => o == op
    case TurnCompleted(o, _) => o == op
    case CompactionFailed(o, _) => o == op
    case CompactionCompleted(o) => o == op
    case RunStopped(settles) => settles == Some(op)
    case RunFailed(settles, _) => settles == Some(op)
    case RunSucceeded(o) => o == op
    case _ => false
  }

  predicate Prepares(e: Event, op: nat)
  {
    e.Prepared? && e.op == op
  }

  function CountPrepared(t: seq<Event>, op: nat): nat
  {
    if t == [] then 0 else CountPrepared(t[..|t| - 1], op) + if Prepares(t[|t| - 1], op) then 1 else 0
  }

  function CountSettled(t: seq<Event>, op: nat): nat
  {
    if t == [] then 0 else CountSettled(t[..|t| - 1], op) + if Settles(t[|t| - 1], op) then 1 else 0
  }

  predicate OpenIsKnown(m: Monitor)
  {
    m.open.Some? ==> m.open.value.op < m.nextOp
  }

  lemma {:induction false} NumbersStep(m: Monitor, e: Event, op: nat)
    requires Allowed(m, e) && OpenIsKnown(m)
    ensures OpenIsKnown(Next(m, e))
    ensures op < Next(m, e).nextOp <==> op < m.nextOp || Prepares(e, op)
    ensures Prepares(e, op) ==> op >= m.nextOp && !Settles(e, op)
  {
  }

  lemma {:induction false} OperationStep(m: Monitor, e: Event, op: nat)
    requires Allowed(m, e) && OpenIsKnown(m)
    ensures OpenIsKnown(Next(m, e))
    ensures op < Next(m, e).nextOp <==> op < m.nextOp || Prepares(e, op)
    ensures Prepares(e, op) ==> op >= m.nextOp && !Settles(e, op)
    ensures Settles(e, op) ==> OpenId(m) == Some(op)
    ensures OpenId(Next(m, e)) == Some(op) <==> Prepares(e, op) || (OpenId(m) == Some(op) && !Settles(e, op))
  {
    NumbersStep(m, e, op);
  }

  /** Every operation is prepared at most once and settled once, except the one still in flight. */
  lemma {:induction false} OperationsSettleOnce(t: seq<Event>, op: nat)
    requires Legal(t)
    ensures OpenIsKnown(After(t))
    ensures CountPrepared(t, op) == if op < After(t).nextOp then 1 else 0
    ensures CountSettled(t, op) == CountPrepared(t, op) - if OpenId(After(t)) == Some(op) then 1 else 0
    decreases |t|
  {
    if t != [] {
      hide Allowed, Next, Replay, Settles, Prepares;
      LegalLast(t);
      OperationsSettleOnce(t[..|t| - 1], op);
      OperationStep(After(t[..|t| - 1]), t[|t| - 1], op);
    }
  }

  /** At most one provider operation is in flight at any moment of a run. */
  lemma {:induction false} AtMostOneInFlight(t: seq<Event>, n: nat, a: nat, b: nat)
    requires Legal(t) && n <= |t|
    requires CountPrepared(t[..n], a) > CountSettled(t[..n], a)
    requires CountPrepared(t[..n], b) > CountSettled(t[..n], b)
    ensures a == b
  {
    LegalPrefix(t, n);
    OperationsSettleOnce(t[..n], a);
    OperationsSettleOnce(t[..n], b);
  }

  lemma {:induction false} StageStep(m: Monitor, e: Event)
    requires Allowed(m, e) && ToolsConsistent(m)
    ensures Next(m, e).open.Some? && Next(m, e).open.value.stage.IsDispatched? && !Next(m, e).over ==>
      e == Dispatched(Next(m, e).open.value.op)
  {
  }

  lemma {:induction false} DispatchedIsLast(t: seq<Event>)
    requires Legal(t) && After(t).open.Some? && After(t).open.value.stage.IsDispatched? && !After(t).over
    ensures t != [] && t[|t| - 1] == Dispatched(After(t).open.value.op)
  {
    hide Allowed, Next;
    if t != [] {
      LegalLast(t);
      ResultsAreAPrefix(t[..|t| - 1]);
      StageStep(After(t[..|t| - 1]), t[|t| - 1]);
    }
  }

  /** The provider is called only on the operation whose dispatch was recorded immediately before. */
  lemma {:induction false} ExecuteFollowsDispatch(t: seq<Event>, i: nat)
    requires Legal(t) && i < |t| && t[i].Executed?
    ensures i > 0 && t[i - 1] == Dispatched(t[i].op)
  {
    hide Next, Replay;
    LegalAt(t, i);
    DispatchedIsLast(t[..i]);
  }

  ghost predicate ExecutedBefore(t: seq<Event>, n: nat, op: nat)
    requires n <= |t|
  {
    exists i :: 0 <= i < n && t[i] == Executed(op)
  }

  lemma {:induction false} ExecutedBeforeStep(t: seq<Event>, n: nat, op: nat)
    requires n < |t|
    ensures ExecutedBefore(t, n + 1, op) <==> ExecutedBefore(t, n, op) || t[n] == Executed(op)
  {
    if ExecutedBefore(t, n + 1, op) {
      var i :| 0 <= i < n + 1 && t[i] == Executed(op);
      assert i == n || ExecutedBefore(t, n, op);
    }
    if ExecutedBefore(t, n, op) {
      var i :| 0 <= i < n && t[i] == Executed(op);
      assert 0 <= i < n + 1;
    }
  }

  predicate InFlightExecuted(m: Monitor, op: nat)
  {
    OpenId(m) == Some(op) && m.open.value.stage.IsExecuted?
  }

  lemma {:induction false} OpenStep(m: Monitor, e: Event, op: nat)
    requires Allowed(m, e) && OpenIsKnown(m)
    ensures OpenId(Next(m, e)) == Some(op) && OpenId(m) != Some(op) ==> op >= m.nextOp
    ensures OpenId(m) == Some(op) ==> op < m.nextOp
    ensures m.nextOp <= Next(m, e).nextOp
    ensures OpenIsKnown(Next(m, e))
  {
  }

  lemma {:induction false} ExecutedStep(m: Monitor, e: Event, op: nat)
    requires Allowed(m, e) && OpenIsKnown(m)
    ensures InFlightExecuted(Next(m, e), op) ==> InFlightExecuted(m, op) || e == Executed(op)
    ensures e == Executed(op) ==> InFlightExecuted(Next(m, e), op)
    ensures InFlightExecuted(m, op) && OpenId(Next(m, e)) == Some(op) ==> InFlightExecuted(Next(m, e), op)
    ensures OpenId(Next(m, e)) == Some(op) && OpenId(m) != Some(op) ==> op >= m.nextOp
    ensures OpenId(m) == Some(op) ==> op < m.nextOp
    ensures m.nextOp <= Next(m, e).nextOp
    ensures OpenIsKnown(Next(m, e))
  {
    OpenStep(m, e, op);
  }

  /** What is in flight has reached the provider exactly when its execution is on record. */
  lemma {:induction false} StageMeansExecuted(t: seq<Event>, n: nat, op: nat)
    requires Legal(t) && n <= |t|
    ensures Legal(t[..n]) && OpenIsKnown(After(t[..n]))
    ensures OpenId(After(t[..n])) == Some(op) ==> (InFlightExecuted(After(t[..n]), op) <==> ExecutedBefore(t, n, op))
    ensures ExecutedBefore(t, n, op) ==> op < After(t[..n]).nextOp
    decreases n
  {
    if n > 0 {
      hide Allowed, Next, Replay, ExecutedBefore;
      StageMeansExecuted(t, n - 1, op);
      LegalAt(t, n - 1);
      ExecutedBeforeStep(t, n - 1, op);
      ExecutedStep(After(t[..n - 1]), t[n - 1], op);
    }
  }

  /** An operation that never reached the provider is recorded as failed or undispatched, never as uncertain. */
  lemma {:induction false} NeverUncertainUndispatched(t: seq<Event>, i: nat, op: nat)
    requires Legal(t) && i < |t|
    ensures t[i] == RunFailed(Some(op), Uncertain) ==> ExecutedBefore(t, i, op)
    ensures t[i].CompactionFailed? && t[i].op == op ==>
      (ExecutedBefore(t, i, op) <==> !t[i].failure.Undispatched?)
  {
    hide Next, Replay, ExecutedBefore;
    LegalAt(t, i);
    StageMeansExecuted(t, i, op);
  }

  // ----- the end of a run -----

  /** How an operation that was sent may be settled, given the provider's answer. */
  predicate Fits(answer: Answer, e: Event)
  {
    match answer
    case TextAnswer =>
      e.RunSucceeded? || e.CompactionCompleted? || (e.CompactionFailed? && e.failure.UncertainCompaction?)
    case ToolAnswer =>
      e.TurnCompleted? || (e.RunFailed? && e.state.Failed?) || (e.CompactionFailed? && e.failure.UncertainCompaction?)
    case MalformedAnswer =>
      (e.RunFailed? && e.state.Failed?) || (e.CompactionFailed? && e.failure.UncertainCompaction?)
    case ErrorAnswer(cancelled, rejected, state) =>
      || (e.RunStopped? && cancelled)
      || (e.RunFailed? && !cancelled && e.state == state)
      || (e.RejectionSettled? && rejected)
      || (e.CompactionFailed? && e.failure == if rejected then ContextRejected else UncertainCompaction)
  }

  lemma {:induction false} AnswerStep(m: Monitor, e: Event, o: Open)
    requires Allowed(m, e) && Next(m, e).open == Some(o) && o.stage.IsExecuted? && o.answer.Some?
    ensures e == Answered(o.op, o.answer.value) || m.open == Some(o)
  {
  }

  lemma {:induction false} AnswerIsOnRecord(t: seq<Event>, n: nat, o: Open) returns (j: nat)
    requires Legal(t) && n <= |t| && Legal(t[..n]) && After(t[..n]).open == Some(o) && o.stage.IsExecuted? && o.answer.Some?
    ensures j < n && t[j] == Answered(o.op, o.answer.value)
    decreases n
  {
    if n == 0 {
      assert false;
    } else {
      LegalAt(t, n - 1);
      hide Allowed, Next, Replay;
      AnswerStep(After(t[..n - 1]), t[n - 1], o);
      if t[n - 1] == Answered(o.op, o.answer.value) {
        j := n - 1;
      } else {
        j := AnswerIsOnRecord(t, n - 1, o);
      }
    }
  }

  lemma {:induction false} FitsStep(m: Monitor, e: Event, o: Open)
    requires Allowed(m, e) && m.open == Some(o) && o.stage.IsExecuted? && Settles(e, o.op)
    ensures o.answer.Some? && Fits(o.answer.value, e)
  {
  }

  /** An operation that was sent is settled only after the provider's answer, and as that answer demands. */
  lemma {:induction false} SettledAsAnswered(t: seq<Event>, i: nat, op: nat) returns (j: nat)
    requires Legal(t) && i < |t| && Settles(t[i], op) && ExecutedBefore(t, i, op)
    ensures j < i && t[j].Answered? && t[j].op == op && Fits(t[j].answer, t[i])
  {
    LegalAt(t, i);
    StageMeansExecuted(t, i, op);
    var m := After(t[..i]);
    OperationStep(m, t[i], op);
    hide Allowed, Next, Replay, ExecutedBefore, Settles, Fits;
    FitsStep(m, t[i], m.open.value);
    j := AnswerIsOnRecord(t, i, m.open.value);
  }

  predicate Finishes(e: Event)
  {
    e.RunStopped? || e.RunFailed? || e.RunSucceeded?
  }

  predicate EndsRun(e: Event)
  {
    || Finishes(e) || e.PrepareRefused? || e.DispatchClosed? || e.StoreFailed?
    || e == Activated(false) || (e.ToolCompleted? && e.outcome.ToolStopsRun?)
  }

  lemma {:induction false} EndStep(m: Monitor, e: Event)
    requires Allowed(m, e) && (m.justFailed ==> m.over)
    ensures EndsRun(e) ==> Next(m, e).over && (Next(m, e).justFailed <==> e.RunFailed?)
    ensures m.over ==> e.DiagnosticPublished? && Next(m, e).over && m.justFailed && !Next(m, e).justFailed
    ensures Next(m, e).justFailed ==> Next(m, e).over
    ensures Next(m, e).over && !m.over ==> EndsRun(e)
    ensures Next(m, e).justFailed ==> e.RunFailed? || (m.justFailed && !m.over)
  {
  }

  lemma {:induction false} FailedRunIsOver(t: seq<Event>)
    requires Legal(t)
    ensures After(t).justFailed ==> After(t).over && t != [] && t[|t| - 1].RunFailed?
    ensures After(t).over ==> t != []
    decreases |t|
  {
    if t != [] {
      hide Allowed, Next, Replay;
      LegalLast(t);
      FailedRunIsOver(t[..|t| - 1]);
      EndStep(After(t[..|t| - 1]), t[|t| - 1]);
    }
  }

  /** Once a run has ended nothing follows but the diagnostic of a failure just committed. */
  lemma {:induction false} NothingAfterTheEnd(t: seq<Event>, i: nat, j: nat)
    requires Legal(t) && i < j < |t| && EndsRun(t[i])
    ensures t[j] == DiagnosticPublished && t[i].RunFailed? && j == i + 1
    ensures Legal(t[..j + 1]) && After(t[..j + 1]).over && !After(t[..j + 1]).justFailed
    decreases j
  {
    hide Allowed, Next, Replay;
    LegalAt(t, i);
    FailedRunIsOver(t[..i]);
    EndStep(After(t[..i]), t[i]);
    LegalAt(t, j);
    FailedRunIsOver(t[..j]);
    EndStep(After(t[..j]), t[j]);
    if j > i + 1 {
      NothingAfterTheEnd(t, i, j - 1);
    }
  }

  lemma {:induction false} AtMostOneFinish(t: seq<Event>, i: nat, j: nat)
    requires Legal(t) && i <= j < |t| && Finishes(t[i]) && Finishes(t[j])
    ensures i == j
  {
    if i < j {
      NothingAfterTheEnd(t, i, j);
    }
  }

  /** A run that is over was ended by an event on record; nothing ends a run silently. */
  lemma {:induction false} OverMeansEnded(t: seq<Event>) returns (i: nat)
    requires Legal(t) && After(t).over
    ensures i < |t| && EndsRun(t[i])
    decreases |t|
  {
    hide Allowed, Next, EndsRun;
    FailedRunIsOver(t);
    LegalLast(t);
    FailedRunIsOver(t[..|t| - 1]);
    EndStep(After(t[..|t| - 1]), t[|t| - 1]);
    if After(t[..|t| - 1]).over {
      i := OverMeansEnded(t[..|t| - 1]);
    } else {
      i := |t| - 1;
    }
  }

  /** A native diagnostic is published only right after the failure it explains was committed. */
  lemma {:induction false} DiagnosticFollowsFailure(t: seq<Event>, i: nat)
    requires Legal(t) && i < |t| && t[i].DiagnosticPublished?
    ensures i > 0 && t[i - 1].RunFailed?
  {
    hide Next, Replay;
    LegalAt(t, i);
    FailedRunIsOver(t[..i]);
  }

  // ----- context recovery -----

  lemma {:induction false} RecoveryStep(m: Monitor, e: Event)
    requires Allowed(m, e)
    ensures e.RejectionSettled? ==> Next(m, e).recovering
    ensures m.recovering && !e.CompactionCompleted? ==> Next(m, e).recovering
    ensures m.recovering ==> !(e.Prepared? && e.kind.Coding?)
  {
  }

  /** After a settled context rejection no coding request is prepared until a compaction completes. */
  lemma {:induction false} RejectionNeedsCompaction(t: seq<Event>, i: nat, j: nat)
    requires Legal(t) && i < j <= |t| && t[i].RejectionSettled?
    requires forall k :: i < k < j ==> !t[k].CompactionCompleted?
    ensures Legal(t[..j]) && After(t[..j]).recovering
    ensures j < |t| ==> !(t[j].Prepared? && t[j].kind.Coding?)
    decreases j
  {
    hide Allowed, Next, Replay;
    LegalAt(t, j - 1);
    RecoveryStep(After(t[..j - 1]), t[j - 1]);
    if j > i + 1 {
      RejectionNeedsCompaction(t, i, j - 1);
    }
    if j < |t| {
      LegalAt(t, j);
      RecoveryStep(After(t[..j]), t[j]);
    }
  }

  // ----- assistant deltas -----

  function Deltas(t: seq<Event>): seq<nat>
  {
    if t == [] then []
    else Deltas(t[..|t| - 1]) + if t[|t| - 1].DeltaPublished? then [t[|t| - 1].sequence] else []
  }

  lemma {:induction false} DeltaStep(m: Monitor, e: Event)
    requires Allowed(m, e)
    ensures Next(m, e).deltas == m.deltas + if e.DeltaPublished? then 1 else 0
    ensures e.DeltaPublished? ==> e.sequence == m.deltas + 1
  {
    match e
    case Activated(_) =>
    case Prepared(_, _) =>
    case PrepareRefused =>
    case Dispatched(_) =>
    case DispatchClosed(_) =>
    case DispatchRestricted(_) =>
    case Executed(_) =>
    case DeltaPublished(_) =>
    case Answered(_, _) =>
    case RejectionSettled(_) =>
    case RejectionUnsettled(_) =>
    case TurnCompleted(_, _) =>
    case TurnRefused(_) =>
    case CompactionFailed(_, _) =>
    case CompactionRefused(_) =>
    case CompactionCompleted(_) =>
    case ToolPrepared(_) =>
    case ToolDispatched(_) =>
    case ToolRefused(_) =>
    case ToolExecuted(_) =>
    case ToolCompleted(_, _) =>
    case RunStopped(_) =>
    case RunFailed(_, _) =>
    case RunSucceeded(_) =>
    case DiagnosticPublished =>
    case StoreFailed =>
  }

  /** The assistant deltas of a run are numbered 1, 2, 3, ... across all its turns. */
  lemma {:induction false} DeltasNumberedFromOne(t: seq<Event>)
    requires Legal(t)
    ensures |Deltas(t)| == After(t).deltas
    ensures forall k :: 0 <= k < |Deltas(t)| ==> Deltas(t)[k] == k + 1
    decreases |t|
  {
    if t != [] {
      hide Allowed, Next, Replay;
      LegalLast(t);
      DeltasNumberedFromOne(t[..|t| - 1]);
      DeltaStep(After(t[..|t| - 1]), t[|t| - 1]);
    }
  }

  // ----- tool calls -----

  function Committed(t: seq<Event>): seq<nat>
  {
    if t == [] then []
    else Committed(t[..|t| - 1]) + if t[|t| - 1].TurnCompleted? then t[|t| - 1].calls else []
  }

  function Completed(t: seq<Event>): seq<nat>
  {
    if t == [] then []
    else Completed(t[..|t| - 1]) + if t[|t| - 1].ToolCompleted? then [t[|t| - 1].call] else []
  }

  function StartedTools(t: seq<Event>): seq<nat>
  {
    if t == [] then []
    else StartedTools(t[..|t| - 1]) + if t[|t| - 1].ToolPrepared? then [t[|t| - 1].call] else []
  }

  function Underway(m: Monitor): seq<nat>
  {
    if m.tool.Some? && m.owed != [] then [m.owed[0]] else []
  }

  predicate ToolsConsistent(m: Monitor)
  {
    && (m.tool.Some? ==> m.owed != [] && m.open.None?)
    && (m.open.Some? ==> m.owed == [] && !m.stopped)
    && (m.tool.Some? || m.stopped ==> m.started)
    && (m.justFailed ==> m.over && m.tool.None?)
  }

  lemma {:induction false} ToolStep(m: Monitor, e: Event)
    requires Allowed(m, e) && ToolsConsistent(m)
    ensures ToolsConsistent(Next(m, e))
    ensures m.owed + (if e.TurnCompleted? then e.calls else [])
         == (if e.ToolCompleted? then [e.call] else []) + Next(m, e).owed
    ensures Underway(m) + (if e.ToolPrepared? then [e.call] else [])
         == (if e.ToolCompleted? then [e.call] else []) + Underway(Next(m, e))
  {
    match e
    case Activated(_) =>
    case Prepared(_, _) =>
    case PrepareRefused =>
    case Dispatched(_) =>
    case DispatchClosed(_) =>
    case DispatchRestricted(_) =>
    case Executed(_) =>
    case DeltaPublished(_) =>
    case Answered(_, _) =>
    case RejectionSettled(_) =>
    case RejectionUnsettled(_) =>
    case TurnCompleted(_, _) =>
    case TurnRefused(_) =>
    case CompactionFailed(_, _) =>
    case CompactionRefused(_) =>
    case CompactionCompleted(_) =>
    case ToolPrepared(_) =>
    case ToolDispatched(_) =>
    case ToolRefused(_) =>
    case ToolExecuted(_) =>
    case ToolCompleted(_, _) => assert m.owed == [m.owed[0]] + m.owed[1..];
    case RunStopped(_) =>
    case RunFailed(_, _) =>
    case RunSucceeded(_) =>
    case DiagnosticPublished =>
    case StoreFailed =>
  }

  /**
   * Results are recorded in the order the calls were committed, one each, and the calls that have
   * no result are exactly the ones still owed; only the first of them can have been started.
   */
  lemma {:induction false} ResultsAreAPrefix(t: seq<Event>)
    requires Legal(t)
    ensures ToolsConsistent(After(t))
    ensures Committed(t) == Completed(t) + After(t).owed
    ensures StartedTools(t) == Completed(t) + Underway(After(t))
    decreases |t|
  {
    if t != [] {
      hide Allowed, Next, Replay, Underway, ToolsConsistent;
      var before, e := t[..|t| - 1], t[|t| - 1];
      LegalLast(t);
      ResultsAreAPrefix(before);
      var m, m' := After(before), After(t);
      ToolStep(m, e);
      calc {
        Committed(t);
        Completed(before) + (m.owed + if e.TurnCompleted? then e.calls else []);
        Completed(before) + ((if e.ToolCompleted? then [e.call] else []) + m'.owed);
        Completed(t) + m'.owed;
      }
      calc {
        StartedTools(t);
        Completed(before) + (Underway(m) + if e.ToolPrepared? then [e.call] else []);
        Completed(before) + ((if e.ToolCompleted? then [e.call] else []) + Underway(m'));
        Completed(t) + Underway(m');
      }
    } else {
      hide Allowed, Next;
    }
  }

  lemma {:induction false} ToolDispatchedIsLast(t: seq<Event>)
    requires Legal(t) && After(t).tool == Some(IsDispatched) && !After(t).over
    ensures t != [] && After(t).owed != [] && t[|t| - 1] == ToolDispatched(After(t).owed[0])
  {
    hide Allowed, Next;
    if t != [] {
      LegalLast(t);
      ResultsAreAPrefix(t[..|t| - 1]);
      ToolStageStep(After(t[..|t| - 1]), t[|t| - 1]);
    }
  }

  lemma {:induction false} ToolStageStep(m: Monitor, e: Event)
    requires Allowed(m, e) && ToolsConsistent(m) && Next(m, e).tool == Some(IsDispatched)
    ensures Next(m, e).over || (Next(m, e).owed != [] && e == ToolDispatched(Next(m, e).owed[0]))
  {
  }

  /** A tool runs only on the call whose dispatch was recorded immediately before. */
  lemma {:induction false} ToolRunFollowsDispatch(t: seq<Event>, i: nat)
    requires Legal(t) && i < |t| && t[i].ToolExecuted?
    ensures i > 0 && t[i - 1] == ToolDispatched(t[i].call)
  {
    hide Next, Replay;
    LegalAt(t, i);
    ToolDispatchedIsLast(t[..i]);
  }

  lemma {:induction false} CancelledStep(m: Monitor, e: Event)
    requires Allowed(m, e) && ToolsConsistent(m)
    ensures e.ToolCompleted? && e.outcome.ToolCancelled? ==>
      Next(m, e).stopped && !Next(m, e).over && Next(m, e).tool.None?
    ensures m.stopped && !m.over && m.tool.None? ==> e == RunStopped(None) || e.StoreFailed?
  {
  }

  /** A cancelled result is followed only by the end of the run. */
  lemma {:induction false} NothingAfterCancelledTool(t: seq<Event>, i: nat, j: nat)
    requires Legal(t) && i < j < |t| && t[i].ToolCompleted? && t[i].outcome.ToolCancelled?
    ensures j == i + 1 && (t[j] == RunStopped(None) || t[j].StoreFailed?)
  {
    hide Allowed, Next, Replay;
    LegalAt(t, i);
    ResultsAreAPrefix(t[..i]);
    CancelledStep(After(t[..i]), t[i]);
    LegalAt(t, i + 1);
    ResultsAreAPrefix(t[..i + 1]);
    CancelledStep(After(t[..i + 1]), t[i + 1]);
    if j > i + 1 {
      NothingAfterTheEnd(t, i + 1, j);
    }
  }

  /** No provider request is prepared while a committed call still lacks its result. */
  lemma {:induction false} RequestsWaitForResults(t: seq<Event>, i: nat)
    requires Legal(t) && i < |t| && t[i].Prepared?
    ensures Committed(t[..i]) == Completed(t[..i])
  {
    hide Next, Replay;
    LegalAt(t, i);
    ResultsAreAPrefix(t[..i]);
  }
}
