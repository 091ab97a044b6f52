/** The client's application state around its open session (crates/morons-cli/src/app.rs). */
module ClientApp {
  import opened Basics
  import opened Session
  import opened Viewport

  datatype Navigation = Latest | Older | Newer | Oldest

  /** `presentable` is whether the terminal text of the entry or preview can be laid out. */
  datatype Event =
    | EntryCommitted(sessionId: nat, entry: TranscriptEntry, presentable: bool)
    | RunChanged(run: Run)
    | LocalCommandChanged(sessionId: nat, commandId: nat, active: bool)
    | CompactionActivity(sessionId: nat, runId: nat, active: bool)
    | AssistantDelta(sessionId: nat, runId: nat, sequence: nat, delta: Text, refusal: bool, presentable: bool)

  /** A run the client already lists keeps the summary it lists. */
  ghost predicate RunsRetained(before: seq<Run>, after: seq<Run>)
  {
    forall id :: Known(before, id).Some? && Known(after, id).Some? ==> Known(after, id) == Known(before, id)
  }

  function Overlaid(listed: seq<Run>, live: seq<Run>): (r: seq<Run>)
    ensures |r| == |listed|
  {
    seq(|listed|, i requires 0 <= i < |listed| =>
      if Known(live, listed[i].id).Some? then Known(live, listed[i].id).value else listed[i])
  }

  method OverlayKnownRuns(listed: seq<Run>, live: seq<Run>) returns (r: seq<Run>)
    ensures r == Overlaid(listed, live)
    ensures RunsRetained(live, r)
    ensures forall i :: 0 <= i < |r| ==> r[i].id == listed[i].id && (r[i] in live || r[i] == listed[i])
  {
    r := listed;
    for i := 0 to |listed|
      invariant |r| == |listed|
      invariant forall k :: 0 <= k < i ==>
        r[k] == if Known(live, listed[k].id).Some? then Known(live, listed[k].id).value else listed[k]
      invariant forall k :: i <= k < |r| ==> r[k] == listed[k]
    {
      var known := Known(live, r[i].id);
      if known.Some? {
        r := r[i := known.value];
      }
    }
  }

  /** The page as the current runs and active work want it shown. */
  function Shown(runs: seq<Run>, activeRunId: Option<nat>, activeCommandId: Option<nat>, page: Window,
      navigation: Navigation): Window
  {
    if navigation.Latest? then page
    else
      var overlaid := Overlaid(page.runs, runs);
      var kept := activeRunId.Some? && Known(overlaid, activeRunId.value).None? && Known(runs, activeRunId.value).Some?;
      page.(runs := if kept then overlaid + [Known(runs, activeRunId.value).value] else overlaid,
            activeRunId := activeRunId, activeCommandId := activeCommandId)
  }

  /** The page as the current view wants it shown: older pages do not overrule what is live. */
  method PageFor(current: SessionView, page: Window, navigation: Navigation) returns (window: Window)
    ensures window == Shown(current.runs, current.activeRunId, current.activeCommandId, page, navigation)
    ensures !navigation.Latest? ==> RunsRetained(current.runs, window.runs)
  {
    hide Overlaid;
    window := page;
    if navigation.Latest? {
      return;
    }
    var overlaid := OverlayKnownRuns(page.runs, current.runs);
    if current.activeRunId.Some? {
      var activeRunId := current.activeRunId.value;
      var active := Known(current.runs, activeRunId);
      if Known(overlaid, activeRunId).None? && active.Some? {
        KnownAfterPush(overlaid, active.value);
        overlaid := overlaid + [active.value];
      }
    }
    window := page.(runs := overlaid, activeRunId := current.activeRunId, activeCommandId := current.activeCommandId);
  }

  lemma {:induction false} ResolvedRunsStayLive(runs: seq<Run>, id: nat, state: RunState, requested: bool)
    requires FindRun(runs, id).Some?
    ensures forall other :: other != id && LiveRun(runs, other) ==>
      LiveRun(ResolveCancellation(runs, id, state, requested), other)
    ensures !state.IsTerminal() ==> LiveRun(ResolveCancellation(runs, id, state, requested), id)
    ensures forall i :: 0 <= i < |runs| ==>
      ResolveCancellation(runs, id, state, requested)[i].sessionId == runs[i].sessionId
  {
    var n := FindRun(runs, id).value;
    UpdateKeepsLive(runs, n, runs[n].(state := state, cancellationRequested := requested));
  }

  class AppState {
    var session: SessionView?
    const viewport: TranscriptViewport

    ghost predicate Valid()
      reads this, session, viewport
    {
      viewport.Valid() && (session != null ==> session.Valid())
    }

    constructor ()
      ensures Valid() && session == null && fresh(viewport)
    {
      session := null;
      viewport := new TranscriptViewport();
    }

    method OpenSessionWindow(window: Window, presentable: bool) returns (r: Result<(), UiStateError>)
      requires Valid()
      modifies this`session, viewport
      ensures Valid()
      ensures r.Ok? <==> WindowAccepted(window) && presentable
      ensures r.Ok? ==>
        && session != null && fresh(session) && viewport.followLatest
        && session.sessionId == window.sessionId && session.sources == window.entries && session.runs == window.runs
        && session.activeRunId == window.activeRunId && session.activeCommandId == window.activeCommandId
      ensures r.Err? ==> session == old(session)
    {
      var view := SessionView.New(window, presentable);
      if view.Err? {
        return Err(view.error);
      }
      session := view.value;
      viewport.Reset();
      return Ok(());
    }

    function PageShown(page: Window, navigation: Navigation): Window
      reads this, session
    {
      if session == null then page
      else Shown(session.runs, session.activeRunId, session.activeCommandId, page, navigation)
    }

    /**
     * Moves the open session to another page of its transcript.  Only the newest page may change
     * what the client believes about active work or about a run it already lists.
     */
    method InstallTranscriptWindow(page: Window, navigation: Navigation, presentable: bool)
        returns (r: Result<(), UiStateError>)
      requires Valid()
      modifies this`session, viewport
      ensures Valid()
      ensures r.Ok? <==> old(InSession(page.sessionId)) && presentable && WindowAccepted(old(PageShown(page, navigation)))
      ensures r.Ok? ==>
        && old(session) != null && session != null && fresh(session)
        && session.sessionId == old(session).sessionId == page.sessionId && session.sources == page.entries
      ensures r.Ok? && !navigation.Latest? ==>
        && session.activeRunId == old(session.activeRunId)
        && session.activeCommandId == old(session.activeCommandId)
        && session.deferredNewerOutput == old(session.deferredNewerOutput)
        && RunsRetained(old(session.runs), session.runs)
      ensures r.Ok? && navigation.Latest? ==> session.runs == page.runs && !session.deferredNewerOutput
      ensures r.Ok? ==> viewport.followLatest == (navigation.Latest? || navigation.Older?)
      ensures r.Err? ==> session == old(session)
    {
      hide SessionView.Valid, TranscriptViewport.Valid, RunsRetained, WindowAccepted, Overlaid;
      if !InSession(page.sessionId) {
        return Err(ResourceScopeMismatch);
      }
      var current: SessionView := session;
      var window := PageFor(current, page, navigation);
      var replacement := SessionView.New(window, presentable);
      if replacement.Err? {
        return Err(replacement.error);
      }
      var view: SessionView := replacement.value;
      if current.compactingRun.Some? && view.activeRunId == current.compactingRun {
        view.compactingRun := current.compactingRun;
      }
      view.deferredNewerOutput := !navigation.Latest? && current.deferredNewerOutput;
      session := view;
      ResetViewport(navigation);
      return Ok(());
    }

    method ResetViewport(navigation: Navigation)
      modifies viewport
      ensures viewport.Valid()
      ensures viewport.followLatest == (navigation.Latest? || navigation.Older?)
    {
      if navigation.Latest? || navigation.Older? {
        viewport.Reset();
      } else {
        viewport.ResetToTop();
      }
    }

    /** Writes the server's answer to a cancellation into the run, without a transition check. */
    method CancellationResolved(runId: nat, state: RunState, requested: bool) returns (r: Result<(), UiStateError>)
      requires Valid()
      modifies session, viewport
      ensures Valid()
      ensures r.Ok? <==> session != null && old(Known(session.runs, runId)).Some?
      ensures r.Ok? ==>
        && FindRun(old(session.runs), runId).Some?
        && session.runs == ResolveCancellation(old(session.runs), runId, state, requested)
        && session.activeRunId == (if state.IsTerminal() && old(session.activeRunId) == Some(runId) then None
                                   else old(session.activeRunId))
    {
      hide Budget, PresentAll, LiveRun, PreviewAccurate, TranscriptViewport.Valid;
      if session == null {
        return Err(ResourceScopeMismatch);
      }
      var view: SessionView := session;
      var found := FindRun(view.runs, runId);
      if found.None? {
        return Err(ResourceScopeMismatch);
      }
      ResolvedRunsStayLive(view.runs, runId, state, requested);
      view.runs := ResolveCancellation(view.runs, runId, state, requested);
      if state.IsTerminal() && view.activeRunId == Some(runId) {
        view.activeRunId := None;
        if view.transient.Some? {
          view.transient := None;
          viewport.NoteLayoutChanged();
        }
      }
      return Ok(());
    }

    method PauseTranscriptPreview()
      requires Valid()
      modifies session, viewport
      ensures Valid()
      ensures session != null ==> session.deltaSequence == None && (session.transient.Some? ==> session.transient.value.truncated)
    {
      if session != null {
        session.PausePreview();
        viewport.NoteLayoutChanged();
      }
    }

    predicate InSession(sessionId: nat)
      reads this, session
    {
      session != null && session.sessionId == sessionId
    }

    predicate Accepts(event: Event)
      reads this, session
    {
      match event
      case EntryCommitted(sessionId, entry, presentable) => AcceptsCommit(sessionId, entry, presentable)
      case RunChanged(run) => InSession(run.sessionId) && session.AcceptsRun(run)
      case LocalCommandChanged(sessionId, _, _) => InSession(sessionId)
      case CompactionActivity(sessionId, _, _) => InSession(sessionId)
      case AssistantDelta(sessionId, runId, sequence, delta, refusal, presentable) =>
        InSession(sessionId)
        && (session.IsHistoricalWindow() || session.AcceptsDelta(runId, sequence, delta, refusal, presentable))
    }

    predicate AcceptsCommit(sessionId: nat, entry: TranscriptEntry, presentable: bool)
      reads this, session
    {
      && SourceLength(entry) <= MAX_SOURCE_BYTES && InSession(sessionId)
      && (session.IsHistoricalWindow() || session.AcceptsEntry(entry, presentable))
    }

    /** What an accepted event does to the runs: nothing, unless it is a run's new summary. */
    function RunsAfter(event: Event): seq<Run>
      requires session != null
      reads this, session
    {
      if event.RunChanged? then AfterChange(session.runs, Change(event.run, session.DropsRun(event.run))) else session.runs
    }

    /** Every accepted event keeps the state consistent and leaves ended runs in the state they ended in. */
    method ApplyEvent(event: Event) returns (r: Result<(), UiStateError>)
      requires Valid()
      modifies session, viewport
      ensures r.Ok? <==> old(Accepts(event))
      ensures r.Ok? ==> Valid()
      ensures r.Ok? ==>
        session != null && session.runs == old(RunsAfter(event)) && TerminalAbsorbing(old(session.runs), session.runs)
    {
      match event {
        case EntryCommitted(sessionId, entry, presentable) =>
          r := CommitEntry(sessionId, entry, presentable);
        case RunChanged(run) =>
          r := ChangeRun(run);
        case LocalCommandChanged(sessionId, commandId, active) =>
          r := ChangeCommand(sessionId, commandId, active);
        case CompactionActivity(sessionId, runId, active) =>
          r := ChangeCompaction(sessionId, runId, active);
        case AssistantDelta(sessionId, runId, sequence, delta, refusal, presentable) =>
          r := TakeDelta(sessionId, runId, sequence, delta, refusal, presentable);
      }
    }

    method ChangeCommand(sessionId: nat, commandId: nat, active: bool) returns (r: Result<(), UiStateError>)
      requires Valid()
      modifies session
      ensures r.Ok? <==> old(InSession(sessionId))
      ensures r.Ok? ==> Valid() && session != null && session.runs == old(session.runs)
      ensures r.Ok? ==> session.activeCommandId == if active then Some(commandId) else None
    {
      hide SessionView.Valid, TranscriptViewport.Valid;
      if !InSession(sessionId) {
        return Err(ResourceScopeMismatch);
      }
      session.activeCommandId := if active then Some(commandId) else None;
      return Ok(());
    }

    method ChangeCompaction(sessionId: nat, runId: nat, active: bool) returns (r: Result<(), UiStateError>)
      requires Valid()
      modifies session
      ensures r.Ok? <==> old(InSession(sessionId))
      ensures r.Ok? ==> Valid() && session != null && session.runs == old(session.runs)
      ensures r.Ok? ==> session.compactingRun ==
                          if active && old(session.activeRunId) == Some(runId) then Some(runId)
                          else if !active && old(session.compactingRun) == Some(runId) then None
                          else old(session.compactingRun)
    {
      hide SessionView.Valid, TranscriptViewport.Valid;
      if !InSession(sessionId) {
        return Err(ResourceScopeMismatch);
      }
      if active && session.activeRunId == Some(runId) {
        session.compactingRun := Some(runId);
      } else if !active && session.compactingRun == Some(runId) {
        session.compactingRun := None;
      }
      return Ok(());
    }

    method TakeDelta(sessionId: nat, runId: nat, sequence: nat, delta: Text, refusal: bool, presentable: bool)
        returns (r: Result<(), UiStateError>)
      requires Valid()
      modifies session, viewport
      ensures r.Ok? <==> old(Accepts(AssistantDelta(sessionId, runId, sequence, delta, refusal, presentable)))
      ensures r.Ok? ==> Valid() && session != null && session.runs == old(session.runs)
      ensures r.Ok? && old(session.IsHistoricalWindow()) ==> session.deferredNewerOutput && session.transient == old(session.transient)
    {
      hide SessionView.Valid, TranscriptViewport.Valid;
      if !InSession(sessionId) {
        return Err(ResourceScopeMismatch);
      }
      var view: SessionView := session;
      if view.IsHistoricalWindow() {
        view.deferredNewerOutput := true;
        viewport.NoteNewerOutput();
        return Ok(());
      }
      r := view.AppendDelta(runId, sequence, delta, refusal, presentable);
      if r.Ok? {
        viewport.NoteContentChanged();
      }
    }

    method CommitEntry(sessionId: nat, entry: TranscriptEntry, presentable: bool) returns (r: Result<(), UiStateError>)
      requires Valid()
      modifies session, viewport
      ensures r.Ok? <==> old(AcceptsCommit(sessionId, entry, presentable))
      ensures r.Ok? ==> Valid() && session != null && session.runs == old(session.runs)
      ensures r.Ok? && old(session.IsHistoricalWindow()) ==> session.sources == old(session.sources)
    {
      hide SessionView.Valid, TranscriptViewport.Valid;
      if EntrySourceBytes(entry).None? {
        return Err(ResourceLimitExceeded);
      }
      if entry.AssistantMessage? {
        viewport.ReplaceTransient(entry.runId, entry.id);
      }
      if !InSession(sessionId) {
        return Err(ResourceScopeMismatch);
      }
      var view: SessionView := session;
      if view.IsHistoricalWindow() {
        view.DeferTranscriptEntry(entry);
        viewport.NoteLayoutChanged();
        viewport.NoteNewerOutput();
        return Ok(());
      }
      var appended := view.AppendTranscriptEntry(entry, presentable);
      if appended.Err? {
        return Err(appended.error);
      }
      if appended.value {
        viewport.NoteContentChanged();
      }
      return Ok(());
    }

    method ChangeRun(run: Run) returns (r: Result<(), UiStateError>)
      requires Valid()
      modifies session, viewport
      ensures r.Ok? <==> old(InSession(run.sessionId) && session.AcceptsRun(run))
      ensures r.Ok? ==> Valid() && session != null && TerminalAbsorbing(old(session.runs), session.runs)
      ensures r.Ok? ==> session.runs == AfterChange(old(session.runs), Change(run, old(session.DropsRun(run))))
    {
      hide SessionView.Valid, TranscriptViewport.Valid, TerminalAbsorbing, Known, AfterChange, Recordable;
      if !InSession(run.sessionId) {
        return Err(ResourceScopeMismatch);
      }
      var view: SessionView := session;
      var historical := view.IsHistoricalWindow();
      var hadTransient := view.transient.Some?;
      r := view.ApplyRun(run);
      if r.Err? {
        return;
      }
      if view.compactingRun != view.activeRunId {
        view.compactingRun := None;
      }
      view.deferredNewerOutput := historical || view.deferredNewerOutput;
      NoteRunChange(historical, run.state.IsTerminal() && !run.state.Succeeded?, hadTransient && view.transient.None?);
    }

    /** What the viewport is told: output below, a status line to show, or a preview that went away. */
    method NoteRunChange(historical: bool, presented: bool, previewEnded: bool)
      requires viewport.Valid()
      modifies viewport
      ensures viewport.Valid()
    {
      if historical {
        viewport.NoteLayoutChanged();
        viewport.NoteNewerOutput();
      } else if presented {
        viewport.NoteContentChanged();
      } else if previewEnded {
        viewport.NoteLayoutChanged();
      }
    }
  }

  /** The run summaries among the events, in order. */
  function Summaries(events: seq<Event>): seq<Run>
  {
    if events == [] then []
    else
      var last := events[|events| - 1];
      Summaries(events[..|events| - 1]) + (if last.RunChanged? then [last.run] else [])
  }

  function RunsOf(changes: seq<Change>): seq<Run>
  {
    seq(|changes|, i requires 0 <= i < |changes| => changes[i].run)
  }

  lemma {:induction false} OneMoreChange(runs: seq<Run>, changes: seq<Change>, change: Change)
    requires AllAccepted(runs, changes) && Recordable(AfterChanges(runs, changes), change.run)
    requires change.dropped ==> change.run.state.IsTerminal()
    ensures AllAccepted(runs, changes + [change])
    ensures AfterChanges(runs, changes + [change]) == AfterChange(AfterChanges(runs, changes), change)
    ensures RunsOf(changes + [change]) == RunsOf(changes) + [change.run]
  {
    hide AfterChange, Recordable;
    assert (changes + [change])[..|changes|] == changes;
  }

  /**
   * Whatever events arrive, every state before the first refused one is consistent, and the runs listed
   * are those the accepted summaries leave, each dropped only in a historical window.
   */
  method RunEvents(app: AppState, events: seq<Event>) returns (applied: nat, ghost changes: seq<Change>)
    requires app.Valid() && app.session != null
    modifies app.session, app.viewport
    ensures applied <= |events|
    ensures RunsOf(changes) == Summaries(events[..applied])
    ensures AllAccepted(old(app.session.runs), changes)
    ensures applied == |events| ==>
      app.Valid() && app.session != null && app.session.runs == AfterChanges(old(app.session.runs), changes)
  {
    hide AppState.Valid, SessionView.Valid, TranscriptViewport.Valid, AfterChange, AfterChanges, AllAccepted, Recordable;
    hide TerminalAbsorbing, RunsOf;
    applied, changes := 0, [];
    var view: SessionView := app.session;
    NoChanges(view.runs);
    while applied < |events|
      invariant applied <= |events| && app.Valid() && app.session == view
      invariant RunsOf(changes) == Summaries(events[..applied])
      invariant AllAccepted(old(app.session.runs), changes) && view.runs == AfterChanges(old(app.session.runs), changes)
    {
      var event := events[applied];
      ghost var before := view.runs;
      ghost var dropped := event.RunChanged? && view.DropsRun(event.run);
      var r := app.ApplyEvent(event);
      if r.Err? {
        return;
      }
      assert events[..applied + 1][..applied] == events[..applied];
      if event.RunChanged? {
        OneMoreChange(old(app.session.runs), changes, Change(event.run, dropped));
        changes := changes + [Change(event.run, dropped)];
      }
      applied := applied + 1;
    }
    assert events[..|events|] == events;
  }

  lemma {:induction false} NoChanges(runs: seq<Run>)
    ensures AllAccepted(runs, []) && AfterChanges(runs, []) == runs && RunsOf([]) == []
  {
  }
}
