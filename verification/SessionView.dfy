/**
 * The open session of the terminal client: its byte-bounded transcript window, its run states and
 * its streaming preview (crates/morons-cli/src/app/transcript.rs, app.rs, transcript_budget.rs).
 */
module Session {
  import opened Basics
  import RunTrace

  const MAX_SOURCE_BYTES := 1024 * 1024
  const ENTRY_ENVELOPE_BYTES := 128
  const MAX_CLIENT_TRANSCRIPT_ENTRIES := 128
  const MAX_CLIENT_RUNS := 512
  const MAX_TRANSIENT_DELTA_BYTES := 128 * 1024

  type Text = seq<Byte>

  datatype TranscriptEntry =
    | UserMessage(id: nat, runId: nat, text: Text)
    | AssistantMessage(id: nat, runId: nat, text: Text)
    | ToolCall(id: nat, runId: nat, path: Text)
    | ToolResult(id: nat, runId: nat, summary: Text)
    | LocalCommand(id: nat, commandId: nat, command: Text, stdout: Text, stderr: Text)

  datatype RunState = RunAccepted | Active | Succeeded | Failed | Cancelled | Interrupted | Uncertain
  {
    predicate IsTerminal()
    {
      !RunAccepted? && !Active?
    }
  }

  datatype Run = Run(id: nat, sessionId: nat, state: RunState, cancellationRequested: bool)

  datatype UiStateError = ResourceLimitExceeded | ResourceScopeMismatch | InvalidRunTransition

  datatype Presented = Presented(id: nat, runId: Option<nat>, commandId: Option<nat>)

  datatype Transient = Transient(runId: nat, text: Text, refusal: bool, truncated: bool)

  datatype Delta = Delta(runId: nat, sequence: nat, text: Text)

  datatype Cursor = Cursor(sessionId: nat, position: nat)

  datatype Window = Window(
    sessionId: nat, entries: seq<TranscriptEntry>, runs: seq<Run>,
    activeRunId: Option<nat>, activeCommandId: Option<nat>,
    olderCursor: Option<Cursor>, newerCursor: Option<Cursor>)

  // ----- budgets -----

  function SourceLength(entry: TranscriptEntry): nat
  {
    match entry
    case UserMessage(_, _, text) => |text|
    case AssistantMessage(_, _, text) => |text|
    case ToolCall(_, _, path) => |path| + ENTRY_ENVELOPE_BYTES
    case ToolResult(_, _, summary) => |summary| + ENTRY_ENVELOPE_BYTES
    case LocalCommand(_, _, command, stdout, stderr) => |command| + |stdout| + |stderr| + ENTRY_ENVELOPE_BYTES
  }

  /** A sum too large for a machine integer is far over the limit, so `None` covers both. */
  function EntrySourceBytes(entry: TranscriptEntry): (r: Option<nat>)
    ensures r.Some? ==> r.value <= MAX_SOURCE_BYTES
  {
    if SourceLength(entry) <= MAX_SOURCE_BYTES then Some(SourceLength(entry)) else None
  }

  /** The plain budget of a list of entries: the reference the fold and the running total agree with. */
  function Budget(entries: seq<TranscriptEntry>): nat
  {
    if entries == [] then 0 else Budget(entries[..|entries| - 1]) + SourceLength(entries[|entries| - 1])
  }

  lemma {:induction false} BudgetAppend(entries: seq<TranscriptEntry>, entry: TranscriptEntry)
    ensures Budget(entries + [entry]) == Budget(entries) + SourceLength(entry)
  {
    assert (entries + [entry])[..|entries|] == entries;
  }

  lemma {:induction false} BudgetMonotone(entries: seq<TranscriptEntry>, n: nat)
    requires n <= |entries|
    ensures Budget(entries[..n]) <= Budget(entries)
    decreases |entries| - n
  {
    if n < |entries| {
      assert entries[..n + 1] == entries[..n] + [entries[n]];
      BudgetAppend(entries[..n], entries[n]);
      BudgetMonotone(entries, n + 1);
    } else {
      assert entries[..n] == entries;
    }
  }

  /** The checked fold succeeds exactly when the whole budget fits. */
  method WindowSourceBytes(entries: seq<TranscriptEntry>) returns (r: Option<nat>)
    ensures r == if Budget(entries) <= MAX_SOURCE_BYTES then Some(Budget(entries)) else None
  {
    var total := 0;
    for i := 0 to |entries|
      invariant total == Budget(entries[..i]) <= MAX_SOURCE_BYTES
    {
      assert entries[..i + 1] == entries[..i] + [entries[i]];
      BudgetAppend(entries[..i], entries[i]);
      BudgetMonotone(entries, i + 1);
      var bytes := EntrySourceBytes(entries[i]);
      if bytes.None? || total + bytes.value > MAX_SOURCE_BYTES {
        return None;
      }
      total := total + bytes.value;
    }
    assert entries[..|entries|] == entries;
    return Some(total);
  }

  function EntryRunId(entry: TranscriptEntry): Option<nat>
  {
    if entry.LocalCommand? then None else Some(entry.runId)
  }

  function EntryCommandId(entry: TranscriptEntry): Option<nat>
  {
    if entry.LocalCommand? then Some(entry.commandId) else None
  }

  function Present(entry: TranscriptEntry): Presented
  {
    Presented(entry.id, EntryRunId(entry), EntryCommandId(entry))
  }

  function PresentAll(entries: seq<TranscriptEntry>): seq<Presented>
  {
    seq(|entries|, i requires 0 <= i < |entries| => Present(entries[i]))
  }

  lemma {:induction false} PresentAllAppend(entries: seq<TranscriptEntry>, entry: TranscriptEntry)
    ensures PresentAll(entries + [entry]) == PresentAll(entries) + [Present(entry)]
  {
  }

  lemma {:induction false} PresentAllIds(entries: seq<TranscriptEntry>)
    ensures |PresentAll(entries)| == |entries|
    ensures forall i :: 0 <= i < |entries| ==> PresentAll(entries)[i].id == entries[i].id
  {
  }

  // ----- run states -----

  predicate ValidRunTransition(previous: RunState, next: RunState)
  {
    match previous
    case RunAccepted => true
    case Active => !next.RunAccepted?
    case _ => next == previous
  }

  /** What the client knows of a run: the first summary it lists under that identifier. */
  function Known(runs: seq<Run>, id: nat): (r: Option<Run>)
    ensures r.Some? ==> r.value.id == id && r.value in runs
    ensures r.None? <==> forall i :: 0 <= i < |runs| ==> runs[i].id != id
  {
    if runs == [] then None
    else if runs[0].id == id then Some(runs[0])
    else Known(runs[1..], id)
  }

  function FindRun(runs: seq<Run>, id: nat): (r: Option<nat>)
    ensures r.Some? ==> r.value < |runs| && Known(runs, id) == Some(runs[r.value])
    ensures r.None? <==> Known(runs, id) == None
  {
    if runs == [] then None
    else if runs[0].id == id then Some(0)
    else match FindRun(runs[1..], id) case None => None case Some(n) => Some(n + 1)
  }

  /** No listed run that had ended is listed in another state afterwards. */
  ghost predicate TerminalAbsorbing(before: seq<Run>, after: seq<Run>)
  {
    forall id :: Known(before, id).Some? && Known(before, id).value.state.IsTerminal() && Known(after, id).Some?
      ==> Known(after, id).value.state == Known(before, id).value.state
  }

  ghost predicate LiveRun(runs: seq<Run>, id: nat)
  {
    exists i :: 0 <= i < |runs| && runs[i].id == id && !runs[i].state.IsTerminal()
  }

  /** Recording a cancellation answer writes the first summary of the run, whatever it said. */
  function ResolveCancellation(runs: seq<Run>, id: nat, state: RunState, requested: bool): (r: seq<Run>)
    requires FindRun(runs, id).Some?
    ensures |r| == |runs|
  {
    var n := FindRun(runs, id).value;
    runs[n := runs[n].(state := state, cancellationRequested := requested)]
  }

  lemma {:induction false} KnownAfterUpdate(runs: seq<Run>, n: nat, run: Run)
    requires FindRun(runs, run.id) == Some(n)
    ensures Known(runs[n := run], run.id) == Some(run)
    ensures forall id :: id != run.id ==> Known(runs[n := run], id) == Known(runs, id)
    decreases |runs|
  {
    if n > 0 {
      KnownAfterUpdate(runs[1..], n - 1, run);
      assert runs[n := run][1..] == runs[1..][n - 1 := run];
    } else {
      assert runs[n := run][1..] == runs[1..];
    }
  }

  lemma {:induction false} KnownAfterPush(runs: seq<Run>, run: Run)
    requires Known(runs, run.id) == None
    ensures Known(runs + [run], run.id) == Some(run)
    ensures forall id :: id != run.id ==> Known(runs + [run], id) == Known(runs, id)
    decreases |runs|
  {
    if runs != [] {
      assert runs[0].id != run.id;
      assert forall i :: 0 <= i < |runs[1..]| ==> runs[1..][i] == runs[i + 1];
      KnownAfterPush(runs[1..], run);
      assert (runs + [run])[1..] == runs[1..] + [run];
    }
  }

  lemma {:induction false} PushKeepsLive(runs: seq<Run>, run: Run)
    ensures forall id :: LiveRun(runs, id) ==> LiveRun(runs + [run], id)
    ensures !run.state.IsTerminal() ==> LiveRun(runs + [run], run.id)
  {
    var after := runs + [run];
    assert after[|runs|] == run;
    forall id | LiveRun(runs, id)
      ensures LiveRun(after, id)
    {
      var i :| 0 <= i < |runs| && runs[i].id == id && !runs[i].state.IsTerminal();
      assert after[i] == runs[i];
    }
  }

  lemma {:induction false} UpdateKeepsLive(runs: seq<Run>, n: nat, run: Run)
    requires n < |runs| && runs[n].id == run.id
    ensures forall id :: id != run.id && LiveRun(runs, id) ==> LiveRun(runs[n := run], id)
    ensures !run.state.IsTerminal() ==> LiveRun(runs[n := run], run.id)
  {
    var after := runs[n := run];
    assert after[n] == run;
    forall id | id != run.id && LiveRun(runs, id)
      ensures LiveRun(after, id)
    {
      var i :| 0 <= i < |runs| && runs[i].id == id && !runs[i].state.IsTerminal();
      assert after[i] == runs[i];
    }
  }

  function Without(runs: seq<Run>, id: nat): (r: seq<Run>)
    ensures |r| <= |runs|
    ensures forall i :: 0 <= i < |r| ==> r[i] in runs && r[i].id != id
  {
    if runs == [] then []
    else if runs[0].id == id then Without(runs[1..], id)
    else [runs[0]] + Without(runs[1..], id)
  }

  lemma {:induction false} KnownAfterRetain(runs: seq<Run>, id: nat)
    ensures Known(Without(runs, id), id) == None
    ensures forall other :: other != id ==> Known(Without(runs, id), other) == Known(runs, other)
    ensures forall other :: other != id && LiveRun(runs, other) ==> LiveRun(Without(runs, id), other)
    decreases |runs|
  {
    if runs != [] {
      KnownAfterRetain(runs[1..], id);
      var rest := Without(runs[1..], id);
      forall other | other != id && LiveRun(runs, other)
        ensures LiveRun(Without(runs, id), other)
      {
        var i :| 0 <= i < |runs| && runs[i].id == other && !runs[i].state.IsTerminal();
        if i > 0 {
          assert runs[1..][i - 1] == runs[i];
          assert LiveRun(runs[1..], other);
          var j :| 0 <= j < |rest| && rest[j].id == other && !rest[j].state.IsTerminal();
          assert Without(runs, id) == rest || Without(runs, id)[j + 1] == rest[j];
        } else {
          assert Without(runs, id)[0] == runs[0];
        }
      }
    }
  }

  lemma {:induction false} WithoutIsPart(runs: seq<Run>, id: nat)
    ensures forall i :: 0 <= i < |Without(runs, id)| ==> Without(runs, id)[i] in runs
    ensures |Without(runs, id)| <= |runs|
  {
  }

  // ----- what a list of run changes leaves -----

  /** A summary replaces the first one of its run, or lists a new run. */
  function Recorded(runs: seq<Run>, run: Run): seq<Run>
  {
    match FindRun(runs, run.id)
    case Some(n) => runs[n := run]
    case None => runs + [run]
  }

  predicate Recordable(runs: seq<Run>, run: Run)
  {
    match Known(runs, run.id)
    case Some(known) => ValidRunTransition(known.state, run.state)
    case None => |runs| < MAX_CLIENT_RUNS
  }

  /** An accepted summary; `dropped` if a historical window then forgot the run. */
  datatype Change = Change(run: Run, dropped: bool)

  function AfterChange(runs: seq<Run>, change: Change): seq<Run>
  {
    var recorded := Recorded(runs, change.run);
    if change.dropped then Without(recorded, change.run.id) else recorded
  }

  function AfterChanges(runs: seq<Run>, changes: seq<Change>): seq<Run>
  {
    if changes == [] then runs
    else AfterChange(AfterChanges(runs, changes[..|changes| - 1]), changes[|changes| - 1])
  }

  /** Every change was accepted where it came, and only ended runs were dropped. */
  predicate AllAccepted(runs: seq<Run>, changes: seq<Change>)
  {
    if changes == [] then true
    else
      var before, last := changes[..|changes| - 1], changes[|changes| - 1];
      && AllAccepted(runs, before)
      && Recordable(AfterChanges(runs, before), last.run) && (last.dropped ==> last.run.state.IsTerminal())
  }

  lemma {:induction false} KnownAfterChange(runs: seq<Run>, change: Change, id: nat)
    ensures Known(AfterChange(runs, change), id)
         == if id != change.run.id then Known(runs, id) else if change.dropped then None else Some(change.run)
  {
    var found := FindRun(runs, change.run.id);
    if found.Some? {
      KnownAfterUpdate(runs, found.value, change.run);
    } else {
      KnownAfterPush(runs, change.run);
    }
    KnownAfterRetain(Recorded(runs, change.run), change.run.id);
  }

  predicate ListedAs(runs: seq<Run>, id: nat, state: RunState)
  {
    Known(runs, id).Some? && Known(runs, id).value.state == state
  }

  predicate Drops(change: Change, id: nat)
  {
    change.dropped && change.run.id == id
  }

  /** The run is listed in that state after every one of the changes. */
  ghost predicate StaysListed(runs: seq<Run>, changes: seq<Change>, id: nat, state: RunState)
  {
    forall k :: 0 <= k <= |changes| ==> ListedAs(AfterChanges(runs, changes[..k]), id, state)
  }

  predicate NeverDropped(changes: seq<Change>, id: nat)
  {
    forall k :: 0 <= k < |changes| ==> !Drops(changes[k], id)
  }

  lemma {:induction false} StaysListedSplits(runs: seq<Run>, changes: seq<Change>, id: nat, state: RunState)
    requires changes != []
    ensures StaysListed(runs, changes, id, state)
       <==> StaysListed(runs, changes[..|changes| - 1], id, state) && ListedAs(AfterChanges(runs, changes), id, state)
  {
    hide AfterChanges, ListedAs;
    var front := changes[..|changes| - 1];
    assert forall k :: 0 <= k <= |front| ==> front[..k] == changes[..k];
    assert changes[..|changes|] == changes;
  }

  lemma {:induction false} NeverDroppedSplits(changes: seq<Change>, id: nat)
    requires changes != []
    ensures NeverDropped(changes, id)
       <==> NeverDropped(changes[..|changes| - 1], id) && !Drops(changes[|changes| - 1], id)
  {
    var front := changes[..|changes| - 1];
    assert forall k :: 0 <= k < |front| ==> front[k] == changes[k];
  }

  /** A run that had ended is listed in that state throughout, exactly unless a historical window drops it. */
  lemma {:induction false} EndedRunStaysUnlessDropped(runs: seq<Run>, changes: seq<Change>, id: nat, state: RunState)
    requires AllAccepted(runs, changes) && ListedAs(runs, id, state) && state.IsTerminal()
    ensures StaysListed(runs, changes, id, state) <==> NeverDropped(changes, id)
    decreases |changes|
  {
    if changes == [] {
      assert changes[..0] == [];
    } else {
      var last := |changes| - 1;
      var front := changes[..last];
      EndedRunStaysUnlessDropped(runs, front, id, state);
      StaysListedSplits(runs, changes, id, state);
      NeverDroppedSplits(changes, id);
      KnownAfterChange(AfterChanges(runs, front), changes[last], id);
      if StaysListed(runs, front, id, state) {
        assert front[..last] == front;
        assert ListedAs(AfterChanges(runs, front[..last]), id, state);
      }
      hide AfterChange, Known, StaysListed, NeverDropped;
    }
  }

  /** And then it can come back to life: a repeated terminal summary is dropped, a later one lists the run anew. */
  lemma {:induction false} DroppedRunCanComeBack()
    ensures var ended, active := Run(1, 0, Succeeded, false), Run(1, 0, Active, false);
            var changes := [Change(ended, true), Change(active, false)];
            && ListedAs([ended], 1, Succeeded) && AllAccepted([ended], changes)
            && ListedAs(AfterChanges([ended], changes), 1, Active)
  {
    var ended, active := Run(1, 0, Succeeded, false), Run(1, 0, Active, false);
    var first, second := Change(ended, true), Change(active, false);
    assert [first, second][..1] == [first] && [first][..0] == [];
    assert AfterChanges([ended], [first]) == AfterChange([ended], first);
    KnownAfterChange([ended], first, 1);
    KnownAfterChange(AfterChange([ended], first), second, 1);
    assert |AfterChange([ended], first)| <= 1;
    assert AllAccepted([ended], [first]);
  }

  /**
   * A cancellation answer leaves ended runs alone exactly when the run had not ended or the answer
   * repeats its state; the client does not check this before writing.
   */
  lemma {:induction false} CancellationAbsorbsIff(runs: seq<Run>, id: nat, state: RunState, requested: bool)
    requires FindRun(runs, id).Some?
    ensures TerminalAbsorbing(runs, ResolveCancellation(runs, id, state, requested))
      <==> !Known(runs, id).value.state.IsTerminal() || state == Known(runs, id).value.state
  {
    var n := FindRun(runs, id).value;
    var run := runs[n].(state := state, cancellationRequested := requested);
    KnownAfterUpdate(runs, n, run);
  }

  lemma {:induction false} CancellationCanReviveARun()
    ensures var runs := [Run(1, 0, Succeeded, false)];
      && FindRun(runs, 1).Some?
      && !TerminalAbsorbing(runs, ResolveCancellation(runs, 1, Active, true))
  {
    var runs := [Run(1, 0, Succeeded, false)];
    assert FindRun(runs, 1) == Some(0);
    CancellationAbsorbsIff(runs, 1, Active, true);
  }

  // ----- the streaming preview -----

  function TextOf(deltas: seq<Delta>): Text
  {
    if deltas == [] then [] else TextOf(deltas[..|deltas| - 1]) + deltas[|deltas| - 1].text
  }

  /** Deltas of one run, numbered on from `baseline` without a gap. */
  predicate GapFree(deltas: seq<Delta>, runId: nat, baseline: nat)
  {
    forall i :: 0 <= i < |deltas| ==> deltas[i].runId == runId && deltas[i].sequence == baseline + 1 + i
  }

  /** What a new preview continues from: the last delta accepted for its run, unless forgotten. */
  function Baseline(last: Option<Delta>, runId: nat): nat
  {
    if last.Some? && last.value.runId == runId then last.value.sequence else 0
  }

  lemma {:induction false} TextOfAppend(deltas: seq<Delta>, delta: Delta)
    ensures TextOf(deltas + [delta]) == TextOf(deltas) + delta.text
  {
    assert (deltas + [delta])[..|deltas|] == deltas;
  }

  predicate WindowInScope(window: Window)
  {
    && (forall i :: 0 <= i < |window.runs| ==> window.runs[i].sessionId == window.sessionId)
    && (window.olderCursor.Some? ==> window.olderCursor.value.sessionId == window.sessionId)
    && (window.newerCursor.Some? ==> window.newerCursor.value.sessionId == window.sessionId)
    && (forall i :: 0 <= i < |window.entries| && EntryRunId(window.entries[i]).Some? ==>
          FindRun(window.runs, EntryRunId(window.entries[i]).value).Some?)
    && (window.activeRunId.Some? ==>
          exists i :: 0 <= i < |window.runs| && window.runs[i].id == window.activeRunId.value
            && !window.runs[i].state.IsTerminal())
    && !(window.activeRunId.Some? && window.activeCommandId.Some?)
  }

  ghost predicate WindowAccepted(window: Window)
  {
    && |window.entries| <= MAX_CLIENT_TRANSCRIPT_ENTRIES && |window.runs| <= MAX_CLIENT_RUNS
    && WindowInScope(window) && Budget(window.entries) <= MAX_SOURCE_BYTES
  }

  function CommandAfter(active: Option<nat>, entry: TranscriptEntry): Option<nat>
  {
    if entry.LocalCommand? && active == Some(entry.commandId) then None else active
  }

  /**
   * A preview shows exactly the text of the deltas accepted for it, or has stopped: because it was
   * paused, because a delta was missed, or because the text outgrew its limit, and for no other reason.
   */
  predicate PreviewAccurate(t: Transient, deltas: seq<Delta>, baseline: nat, paused: bool)
  {
    && (!t.truncated ==> t.text == TextOf(deltas))
    && (t.truncated <==>
          paused || !GapFree(deltas, t.runId, baseline) || |TextOf(deltas)| > MAX_TRANSIENT_DELTA_BYTES)
  }

  lemma {:induction false} NewPreviewAccurate(runId: nat, refusal: bool, baseline: nat)
    ensures PreviewAccurate(Transient(runId, [], refusal, false), [], baseline, false)
  {
  }

  /** One more delta: what the text and the truncation mark become. */
  function ExtendPreview(t: Transient, contiguous: bool, delta: Text): (r: Transient)
    ensures r.runId == t.runId && r.refusal == t.refusal
    ensures !r.truncated ==> !t.truncated && contiguous
  {
    if t.truncated || !contiguous then t.(truncated := true)
    else if |t.text| + |delta| > MAX_TRANSIENT_DELTA_BYTES then t.(truncated := true)
    else t.(text := t.text + delta)
  }

  /** The number of the last delta of a run that the client remembers. */
  function Numbered(last: Option<(nat, nat)>, runId: nat): nat
  {
    if last.Some? && last.value.0 == runId then last.value.1 else 0
  }

  function Continued(preview: Option<Transient>, runId: nat, refusal: bool): Transient
  {
    if preview.Some? then preview.value else Transient(runId, [], refusal, false)
  }

  lemma {:induction false} ExtendedPreviewAccurate(t: Transient, deltas: seq<Delta>, baseline: nat, paused: bool,
                                contiguous: bool, delta: Delta)
    requires PreviewAccurate(t, deltas, baseline, paused) && delta.runId == t.runId
    requires !t.truncated ==> (contiguous <==> delta.sequence == baseline + |deltas| + 1)
    ensures PreviewAccurate(ExtendPreview(t, contiguous, delta.text), deltas + [delta], baseline, paused)
  {
    TextOfAppend(deltas, delta);
    GapFreeAppend(deltas, delta, t.runId, baseline);
  }

  /**
   * The server numbers a run's deltas 1, 2, 3, ...; a client that was given every one of them from
   * `baseline` on, and never paused, stops its preview for nothing but its size.
   */
  lemma {:induction false} UnmissedPreviewStopsOnlyForSize(t: Transient, deltas: seq<Delta>, baseline: nat,
                                                           record: seq<RunTrace.Event>)
    requires RunTrace.Legal(record) && baseline + |deltas| <= |RunTrace.Deltas(record)|
    requires forall k :: 0 <= k < |deltas| ==>
               deltas[k].runId == t.runId && deltas[k].sequence == RunTrace.Deltas(record)[baseline + k]
    requires PreviewAccurate(t, deltas, baseline, false)
    ensures t.truncated <==> |TextOf(deltas)| > MAX_TRANSIENT_DELTA_BYTES
    ensures !t.truncated ==> t.text == TextOf(deltas)
  {
    RunTrace.DeltasNumberedFromOne(record);
  }

  lemma {:induction false} GapFreeAppend(deltas: seq<Delta>, delta: Delta, runId: nat, baseline: nat)
    ensures GapFree(deltas + [delta], runId, baseline)
      <==> GapFree(deltas, runId, baseline) && delta.runId == runId && delta.sequence == baseline + 1 + |deltas|
  {
    var longer := deltas + [delta];
    assert longer[|deltas|] == delta;
    assert forall i :: 0 <= i < |deltas| ==> longer[i] == deltas[i];
  }

  class SessionView {
    var sessionId: nat
    var entries: seq<Presented>
    var sourceBytes: nat
    var deltaSequence: Option<(nat, nat)>
    var runs: seq<Run>
    var compactingRun: Option<nat>
    var activeRunId: Option<nat>
    var activeCommandId: Option<nat>
    var olderCursor: Option<Cursor>
    var newerCursor: Option<Cursor>
    var deferredNewerOutput: bool
    var tailRefreshRequired: bool
    var transient: Option<Transient>

    // The entries behind what is presented.
    ghost var sources: seq<TranscriptEntry>
    // The last delta accepted, unless its numbering has been forgotten since.
    ghost var lastDelta: Option<Delta>
    // The deltas accepted for the current preview, where its numbering started, and whether it was paused.
    ghost var previewDeltas: seq<Delta>
    ghost var previewBaseline: nat
    ghost var previewPaused: bool

    ghost predicate EntriesValid()
      reads this`entries, this`sources, this`sourceBytes
    {
      && entries == PresentAll(sources)
      && sourceBytes == Budget(sources) <= MAX_SOURCE_BYTES
      && |entries| <= MAX_CLIENT_TRANSCRIPT_ENTRIES
    }

    ghost predicate RunsValid()
      reads this`runs, this`sessionId, this`activeRunId
    {
      && |runs| <= MAX_CLIENT_RUNS
      && (forall i :: 0 <= i < |runs| ==> runs[i].sessionId == sessionId)
      && (activeRunId.Some? ==> LiveRun(runs, activeRunId.value))
    }

    /**
     * A preview shows, in order and without a gap, the deltas accepted since it began; it stops
     * showing more exactly when it was paused, a delta was missed, or it outgrew its limit.
     */
    ghost predicate PreviewValid()
      reads this`deltaSequence, this`lastDelta, this`transient, this`activeRunId
      reads this`previewDeltas, this`previewBaseline, this`previewPaused
    {
      && (deltaSequence.Some? <==> lastDelta.Some?)
      && (lastDelta.Some? ==> deltaSequence == Some((lastDelta.value.runId, lastDelta.value.sequence)))
      && (transient.Some? ==>
            var t := transient.value;
            && activeRunId == Some(t.runId)
            && previewDeltas != []
            && PreviewAccurate(t, previewDeltas, previewBaseline, previewPaused)
            && (!t.truncated ==> deltaSequence == Some((t.runId, previewBaseline + |previewDeltas|))))
    }

    ghost predicate Valid()
      reads this`entries, this`sources, this`sourceBytes, this`runs, this`sessionId, this`activeRunId
      reads this`deltaSequence, this`lastDelta, this`transient
      reads this`previewDeltas, this`previewBaseline, this`previewPaused
    {
      EntriesValid() && RunsValid() && PreviewValid()
    }

    constructor Assemble(window: Window, bytes: nat)
      ensures sessionId == window.sessionId && entries == PresentAll(window.entries)
      ensures sourceBytes == bytes && deltaSequence == None && runs == window.runs
      ensures compactingRun == None && activeRunId == window.activeRunId
      ensures activeCommandId == window.activeCommandId
      ensures olderCursor == window.olderCursor && newerCursor == window.newerCursor
      ensures !deferredNewerOutput && !tailRefreshRequired && transient == None
      ensures sources == window.entries && lastDelta == None
    {
      sessionId, entries, sourceBytes := window.sessionId, PresentAll(window.entries), bytes;
      deltaSequence, runs, compactingRun := None, window.runs, None;
      activeRunId, activeCommandId := window.activeRunId, window.activeCommandId;
      olderCursor, newerCursor := window.olderCursor, window.newerCursor;
      deferredNewerOutput, tailRefreshRequired, transient := false, false, None;
      sources, lastDelta := window.entries, None;
      previewDeltas, previewBaseline, previewPaused := [], 0, false;
    }

    /** Opens a window, or refuses it; `presentable` is whether its texts can be laid out. */
    static method New(window: Window, presentable: bool) returns (r: Result<SessionView, UiStateError>)
      ensures r.Ok? <==> WindowAccepted(window) && presentable
      ensures r.Ok? ==> fresh(r.value) && r.value.Valid()
      ensures r.Ok? ==>
        && r.value.sessionId == window.sessionId && r.value.sources == window.entries
        && r.value.runs == window.runs && r.value.activeRunId == window.activeRunId
        && r.value.activeCommandId == window.activeCommandId && r.value.newerCursor == window.newerCursor
        && r.value.transient == None && r.value.compactingRun == None && !r.value.deferredNewerOutput
        && r.value.deltaSequence == None
    {
      if |window.entries| > MAX_CLIENT_TRANSCRIPT_ENTRIES || |window.runs| > MAX_CLIENT_RUNS {
        return Err(ResourceLimitExceeded);
      }
      if !WindowInScope(window) {
        return Err(ResourceScopeMismatch);
      }
      var bytes := WindowSourceBytes(window.entries);
      if bytes.None? || !presentable {
        return Err(ResourceLimitExceeded);
      }
      var view := new SessionView.Assemble(window, bytes.value);
      return Ok(view);
    }

    predicate IsHistoricalWindow()
      reads this`newerCursor, this`deferredNewerOutput
    {
      newerCursor.Some? || deferredNewerOutput
    }

    method DeferTranscriptEntry(entry: TranscriptEntry)
      requires Valid()
      modifies this`activeCommandId, this`transient, this`deferredNewerOutput
      ensures Valid() && deferredNewerOutput
      ensures transient == (if entry.AssistantMessage? && old(PreviewOf(entry.runId)) then None else old(transient))
      ensures activeCommandId == CommandAfter(old(activeCommandId), entry)
    {
      if entry.LocalCommand? && activeCommandId == Some(entry.commandId) {
        activeCommandId := None;
      }
      if entry.AssistantMessage? && transient.Some? && transient.value.runId == entry.runId {
        transient := None;
      }
      deferredNewerOutput := true;
    }

    predicate PreviewOf(runId: nat)
      reads this
    {
      transient.Some? && transient.value.runId == runId
    }

    predicate Lists(id: nat)
      reads this`entries
    {
      exists i :: 0 <= i < |entries| && entries[i].id == id
    }

    /** An entry that is listed already, or has no room here, need not be laid out. */
    predicate AcceptsEntry(entry: TranscriptEntry, presentable: bool)
      reads this`entries, this`sourceBytes
    {
      && SourceLength(entry) <= MAX_SOURCE_BYTES
      && (Lists(entry.id) || presentable
          || |entries| >= MAX_CLIENT_TRANSCRIPT_ENTRIES || sourceBytes + SourceLength(entry) > MAX_SOURCE_BYTES)
    }

    /** Adds an entry unless it is listed already; one that does not fit is left for a later page. */
    method AppendTranscriptEntry(entry: TranscriptEntry, presentable: bool) returns (r: Result<bool, UiStateError>)
      requires Valid()
      modifies this
      ensures r.Ok? <==> old(AcceptsEntry(entry, presentable))
      ensures r.Ok? ==> Valid()
      ensures r.Ok? ==> runs == old(runs) && activeRunId == old(activeRunId) && sessionId == old(sessionId)
      ensures r.Ok? ==> deltaSequence == old(deltaSequence) && newerCursor == old(newerCursor)
      ensures r == Ok(false) ==>
        && sources == old(sources) && transient == old(transient)
        && Lists(entry.id)
      ensures r == Ok(true) ==>
        && (forall i :: 0 <= i < |old(sources)| ==> old(sources)[i].id != entry.id)
        && transient == (if entry.AssistantMessage? && old(PreviewOf(entry.runId)) then None else old(transient))
        && activeCommandId == CommandAfter(old(activeCommandId), entry)
        && if |old(sources)| < MAX_CLIENT_TRANSCRIPT_ENTRIES && Budget(old(sources)) + SourceLength(entry) <= MAX_SOURCE_BYTES
           then sources == old(sources) + [entry] && deferredNewerOutput == old(deferredNewerOutput)
           else sources == old(sources) && deferredNewerOutput && tailRefreshRequired
    {
      hide Budget, TextOf, GapFree, LiveRun, PresentAll, Present, RunsValid, PreviewAccurate;
      var bytes := EntrySourceBytes(entry);
      if bytes.None? {
        return Err(ResourceLimitExceeded);
      }
      PresentAllIds(sources);
      if Lists(entry.id) {
        return Ok(false);
      }
      var nextBytes := sourceBytes + bytes.value;
      if |entries| >= MAX_CLIENT_TRANSCRIPT_ENTRIES || nextBytes > MAX_SOURCE_BYTES {
        DeferTranscriptEntry(entry);
        tailRefreshRequired := true;
        return Ok(true);
      }
      if entry.AssistantMessage? && transient.Some? && Some(transient.value.runId) == EntryRunId(entry) {
        transient := None;
      }
      if entry.LocalCommand? && activeCommandId == Some(entry.commandId) {
        activeCommandId := None;
      }
      if !presentable {
        return Err(ResourceLimitExceeded);
      }
      ListEntry(entry, nextBytes);
      return Ok(true);
    }

    /** Puts an entry behind the others, with the bytes it brings the window to. */
    method ListEntry(entry: TranscriptEntry, nextBytes: nat)
      requires EntriesValid() && |entries| < MAX_CLIENT_TRANSCRIPT_ENTRIES
      requires nextBytes == sourceBytes + SourceLength(entry) <= MAX_SOURCE_BYTES
      modifies this`sources, this`entries, this`sourceBytes
      ensures EntriesValid() && sources == old(sources) + [entry]
    {
      hide Budget, PresentAll, Present;
      BudgetAppend(sources, entry);
      PresentAllAppend(sources, entry);
      sources := sources + [entry];
      entries := entries + [Present(entry)];
      sourceBytes := nextBytes;
    }

    predicate AcceptsRun(run: Run)
      reads this`sessionId, this`runs, this`activeRunId
    {
      && run.sessionId == sessionId && Recordable(runs, run)
      && (!run.state.IsTerminal() && activeRunId.Some? ==> activeRunId.value == run.id)
    }

    /** A historical window forgets a run that has ended and has no entry in it. */
    predicate DropsRun(run: Run)
      reads this`newerCursor, this`deferredNewerOutput, this`entries
    {
      run.state.IsTerminal() && IsHistoricalWindow() && !exists i :: 0 <= i < |entries| && entries[i].runId == Some(run.id)
    }

    /** Records a run summary; a run that has ended keeps the state it ended in. */
    method ApplyRun(run: Run) returns (r: Result<(), UiStateError>)
      requires Valid()
      modifies this
      ensures r.Ok? <==> old(AcceptsRun(run))
      ensures r.Ok? ==> Valid()
      ensures r.Ok? ==> runs == AfterChange(old(runs), Change(run, old(DropsRun(run))))
      ensures r.Ok? ==> TerminalAbsorbing(old(runs), runs)
      ensures r.Ok? ==> activeRunId == if !run.state.IsTerminal() then Some(run.id)
                                       else if old(activeRunId) == Some(run.id) then None else old(activeRunId)
      ensures r.Ok? ==> sources == old(sources) && sessionId == old(sessionId)
      ensures r.Ok? ==> transient == if run.state.IsTerminal() && old(PreviewOf(run.id)) then None else old(transient)
    {
      hide Known, PresentAll, Budget, TextOf, GapFree, LiveRun, Recorded, Recordable, Without;
      if run.sessionId != sessionId {
        return Err(ResourceScopeMismatch);
      }
      var recorded := RecordRun(run);
      if recorded.Err? {
        return recorded;
      }
      if run.state.IsTerminal() {
        EndRun(run);
      } else {
        if activeRunId.Some? && activeRunId.value != run.id {
          return Err(InvalidRunTransition);
        }
        activeRunId := Some(run.id);
      }
      return Ok(());
    }

    /** Replaces the first summary of the run, or lists a new run. */
    method RecordRun(run: Run) returns (r: Result<(), UiStateError>)
      requires |runs| <= MAX_CLIENT_RUNS && run.sessionId == sessionId
      requires forall i :: 0 <= i < |runs| ==> runs[i].sessionId == sessionId
      modifies this`runs
      ensures r.Ok? <==> Recordable(old(runs), run)
      ensures runs == if r.Ok? then Recorded(old(runs), run) else old(runs)
      ensures |runs| <= MAX_CLIENT_RUNS && forall i :: 0 <= i < |runs| ==> runs[i].sessionId == sessionId
      ensures r.Ok? ==> Known(runs, run.id) == Some(run) && TerminalAbsorbing(old(runs), runs)
      ensures forall id :: id != run.id && LiveRun(old(runs), id) ==> LiveRun(runs, id)
      ensures r.Ok? && !run.state.IsTerminal() ==> LiveRun(runs, run.id)
    {
      hide LiveRun;
      var found := FindRun(runs, run.id);
      if found.Some? {
        if !ValidRunTransition(runs[found.value].state, run.state) {
          return Err(InvalidRunTransition);
        }
        KnownAfterUpdate(runs, found.value, run);
        UpdateKeepsLive(runs, found.value, run);
        runs := runs[found.value := run];
      } else {
        if |runs| >= MAX_CLIENT_RUNS {
          return Err(ResourceLimitExceeded);
        }
        KnownAfterPush(runs, run);
        PushKeepsLive(runs, run);
        runs := runs + [run];
      }
      return Ok(());
    }

    /** Forgets what belonged to a run that has ended. */
    method EndRun(run: Run)
      requires PreviewValid() && |runs| <= MAX_CLIENT_RUNS && run.state.IsTerminal()
      requires forall i :: 0 <= i < |runs| ==> runs[i].sessionId == sessionId
      requires activeRunId.Some? && activeRunId.value != run.id ==> LiveRun(runs, activeRunId.value)
      modifies this`deltaSequence, this`lastDelta, this`activeRunId, this`transient, this`runs
      ensures RunsValid() && PreviewValid()
      ensures activeRunId == if old(activeRunId) == Some(run.id) then None else old(activeRunId)
      ensures transient == if old(PreviewOf(run.id)) then None else old(transient)
      ensures runs == if old(DropsRun(run)) then Without(old(runs), run.id) else old(runs)
      ensures TerminalAbsorbing(old(runs), runs)
    {
      hide LiveRun, Without, PreviewAccurate, Known;
      if deltaSequence.Some? && deltaSequence.value.0 == run.id {
        deltaSequence, lastDelta := None, None;
      }
      if activeRunId == Some(run.id) {
        activeRunId := None;
      }
      if transient.Some? && transient.value.runId == run.id {
        transient := None;
      }
      if IsHistoricalWindow() && !exists i :: 0 <= i < |entries| && entries[i].runId == Some(run.id) {
        KnownAfterRetain(runs, run.id);
        WithoutIsPart(runs, run.id);
        runs := Without(runs, run.id);
      }
    }

    method PausePreview()
      requires Valid()
      modifies this`deltaSequence, this`transient, this`lastDelta, this`previewPaused
      ensures Valid()
      ensures deltaSequence == None
      ensures transient == if old(transient).Some? then Some(old(transient).value.(truncated := true)) else None
    {
      deltaSequence, lastDelta := None, None;
      if transient.Some? {
        transient := Some(transient.value.(truncated := true));
        previewPaused := true;
      }
    }

    /** The preview after one more delta of the active run. */
    function PreviewAfter(runId: nat, sequence: nat, delta: Text, refusal: bool): (t: Transient)
      reads this`deltaSequence, this`transient
    {
      ExtendPreview(Continued(transient, runId, refusal), Numbered(deltaSequence, runId) + 1 == sequence, delta)
    }

    predicate AcceptsDelta(runId: nat, sequence: nat, delta: Text, refusal: bool, presentable: bool)
      reads this`activeRunId, this`deltaSequence, this`transient
    {
      && activeRunId == Some(runId) && sequence > Numbered(deltaSequence, runId)
      && Continued(transient, runId, refusal).refusal == refusal
      && (presentable || PreviewAfter(runId, sequence, delta, refusal).truncated)
    }

    /** Accepts the next delta of the active run. */
    method AppendDelta(runId: nat, sequence: nat, delta: Text, refusal: bool, presentable: bool)
        returns (r: Result<(), UiStateError>)
      requires Valid()
      modifies this`deltaSequence, this`transient, this`lastDelta
      modifies this`previewDeltas, this`previewBaseline, this`previewPaused
      ensures r.Ok? <==> old(AcceptsDelta(runId, sequence, delta, refusal, presentable))
      ensures r.Ok? ==> Valid()
      ensures r.Ok? ==> lastDelta == Some(Delta(runId, sequence, delta)) && deltaSequence == Some((runId, sequence))
      ensures r.Ok? ==> transient == Some(old(PreviewAfter(runId, sequence, delta, refusal)))
      ensures r.Ok? && old(transient).None? ==>
        && previewDeltas == [Delta(runId, sequence, delta)]
        && previewBaseline == Baseline(old(lastDelta), runId) && !previewPaused
      ensures r.Ok? && old(transient).Some? ==>
        && previewDeltas == old(previewDeltas) + [Delta(runId, sequence, delta)]
        && previewBaseline == old(previewBaseline) && previewPaused == old(previewPaused)
    {
      hide EntriesValid, RunsValid, PreviewAccurate, ExtendPreview;
      if activeRunId != Some(runId) {
        return Err(InvalidRunTransition);
      }
      var previous := Numbered(deltaSequence, runId);
      if sequence <= previous {
        return Err(InvalidRunTransition);
      }
      ghost var starting := transient.None?;
      deltaSequence := Some((runId, sequence));
      if transient.None? {
        transient := Some(Transient(runId, [], refusal, false));
      }
      if transient.value.runId != runId || transient.value.refusal != refusal {
        return Err(InvalidRunTransition);
      }
      r := ShowDelta(Delta(runId, sequence, delta), previous, starting, presentable);
    }

    /** Adds the text of an accepted delta to the preview, which starts with it if `starting`. */
    method ShowDelta(accepted: Delta, previous: nat, ghost starting: bool, presentable: bool)
        returns (r: Result<(), UiStateError>)
      requires activeRunId == Some(accepted.runId) && deltaSequence == Some((accepted.runId, accepted.sequence))
      requires transient.Some? && transient.value.runId == accepted.runId
      requires starting ==> transient.value.text == [] && !transient.value.truncated
      requires !starting ==>
        && PreviewAccurate(transient.value, previewDeltas, previewBaseline, previewPaused)
        && (!transient.value.truncated ==> previous == previewBaseline + |previewDeltas|)
      modifies this`transient, this`lastDelta, this`previewDeltas, this`previewBaseline, this`previewPaused
      ensures r.Ok? <==> presentable || ExtendPreview(old(transient.value), previous + 1 == accepted.sequence, accepted.text).truncated
      ensures PreviewValid() && lastDelta == Some(accepted)
      ensures transient == Some(ExtendPreview(old(transient.value), previous + 1 == accepted.sequence, accepted.text))
      ensures previewDeltas == (if starting then [accepted] else old(previewDeltas) + [accepted])
      ensures previewBaseline == (if starting then previous else old(previewBaseline))
      ensures previewPaused == (!starting && old(previewPaused))
    {
      hide PreviewAccurate, ExtendPreview;
      var t, contiguous := transient.value, previous + 1 == accepted.sequence;
      if starting {
        previewDeltas, previewBaseline, previewPaused := [], previous, false;
        NewPreviewAccurate(accepted.runId, t.refusal, previous);
      }
      ExtendedPreviewAccurate(t, previewDeltas, previewBaseline, previewPaused, contiguous, accepted);
      lastDelta, previewDeltas := Some(accepted), previewDeltas + [accepted];
      transient := Some(ExtendPreview(t, contiguous, accepted.text));
      if !transient.value.truncated && !presentable {
        return Err(ResourceLimitExceeded);
      }
      return Ok(());
    }
  }
}
