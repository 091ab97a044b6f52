# Morons: a verified model

The repository is a local coding agent: a server that runs model turns and tools for durable sessions, and
a terminal client that starts it, authenticates to it and shows its transcripts. This project models the
parts where several things must go right together, and proves what holds of them for all inputs, runs and
interleavings.

- **Running a run.** `RunTrace` is a monitor over the effects of one run and the theorems about every
  legal record; `RunExecution` is the supervisor's loop over a store and a provider whose answers are
  arbitrary, and every record it leaves is legal.
- **Starting and stopping.** `RunSupervisor` and `SlotSupervisor` (login and background compaction, which
  share one shape) interleave requests, tasks and shutdown one atomic step at a time.
- **Reading the log.** `Subscription` is the reader loop against a worker that commits and then notifies.
- **Finding the server.** `Control` is the host lock and the registration file across processes, crashes
  and probes; `Lifecycle` is the client's connect-or-start loop; `Authentication` is the two-party
  exchange over a hostile network; `Framing` is the length-prefixed codec.
- **Showing a transcript.** `Viewport`, `Session` and `ClientApp` are the client's stateful classes.
- **Bounded context.** `ProjectContext`, `Skills`, `ProviderInput` and `ImageMessage` build what is sent
  to the model, `Continuations` what a run carries from one request to the next. `Basics` and `Utf8Text` hold the shared vocabulary.

Protocols are state machines: `Enabled` and `Perform` give one atomic step, `Apply` skips a step that is
not enabled, and `Run` folds any list of steps, so a theorem about `Run` is a theorem about every
interleaving. Code that updates state is a class or a method with loops, proved against a specification
function or predicate. Nondeterministic choices (`*` and `:|`) stand for the store, the provider, the
clock and the file system.

Where a promise fails, the model keeps the code's behaviour: a cancellation answer may move an ended run
to another state (`Session.CancellationCanReviveARun`, with the exact condition in
`Session.CancellationAbsorbsIff`), a run dropped from a historical window may be listed as live again
(`Session.DroppedRunCanComeBack`, with the exact condition in `Session.EndedRunStaysUnlessDropped`), and a
high water that cannot be read may lose a wake-up (`Subscription.UnreadHighWaterLosesAWakeUp`, with the
exact condition over all runs in `Subscription.WakeUpIsLostExactlyWhen`).

`dafny verify dfyconfig.toml` checks the whole project.

## Model

| member | source | states |
|---|---|---|
| RunTrace.OperationsSettleOnce | crates/morons-server/src/run_supervisor.rs:270-649 | in every legal record each provider operation is prepared at most once, and settled exactly as often as prepared unless it is the one still in flight |
| RunTrace.AtMostOneInFlight | crates/morons-server/src/run_supervisor.rs:270-649 | at no moment of a run are two provider operations open |
| RunTrace.ExecuteFollowsDispatch | crates/morons-server/src/run_supervisor.rs:449-488 | the provider is called only on the operation whose dispatch was recorded by the event directly before |
| RunTrace.StageMeansExecuted | crates/morons-server/src/run_supervisor.rs:449-488 | the operation in flight counts as executed exactly when its execution is on record |
| RunTrace.NeverUncertainUndispatched | crates/morons-server/src/run_supervisor.rs:1528-1555 | a failure that settles an operation is recorded as uncertain only if that operation reached the provider, and a compaction as undispatched exactly when it did not; the failure recorded with no operation after a failed compaction carries none and may say uncertain |
| RunTrace.SettledAsAnswered | crates/morons-server/src/run_supervisor.rs:472-649 | an operation that was sent is settled only after the provider answered, and as that answer demands: words succeed, calls are committed, a cancelled call stops the run, any other error fails it with its own state, a rejected context alone may be settled for another try |
| RunTrace.NothingAfterTheEnd | crates/morons-server/src/run_supervisor.rs:270-649 | after the event that ends a run only the diagnostic of a failure may follow |
| RunTrace.AtMostOneFinish | crates/morons-server/src/run_supervisor.rs:270-649 | no record holds two run-finishing calls |
| RunTrace.OverMeansEnded | crates/morons-server/src/run_supervisor.rs:270-649 | a run that is over was ended by an event on record, nothing ends it silently |
| RunTrace.DiagnosticFollowsFailure | crates/morons-server/src/run_supervisor.rs:509-535 | a native diagnostic is published only directly after the failure commit it explains |
| RunTrace.RejectionNeedsCompaction | crates/morons-server/src/run_supervisor.rs:283-332 | between a settled context rejection and the next prepared coding request a compaction has completed |
| RunTrace.DeltasNumberedFromOne | crates/morons-server/src/run_supervisor.rs:472-488 | the published deltas of a run are numbered 1, 2, 3, ... across all turns |
| RunTrace.ResultsAreAPrefix | crates/morons-server/src/run_supervisor.rs:838-957 | tool results are always a prefix of the committed calls, in order, and only the next call may be under way |
| RunTrace.ToolRunFollowsDispatch | crates/morons-server/src/run_supervisor.rs:838-957 | a tool runs only on the call whose dispatch was recorded by the event directly before |
| RunTrace.NothingAfterCancelledTool | crates/morons-server/src/run_supervisor.rs:838-957 | a cancelled tool result is followed by nothing but the end of the run |
| RunTrace.RequestsWaitForResults | crates/morons-server/src/run_supervisor.rs:270-649 | no provider request is prepared while a committed call has no result |
| RunExecution.PublishDeltas | crates/morons-server/src/run_supervisor.rs:472-488 | every non-empty delta of a response gets the next number after the run's last one |
| RunExecution.FailBetweenTurns | crates/morons-server/src/run_supervisor.rs:672-697 | ends the run with no operation in flight, or aborts when persistence fails |
| RunExecution.ExecuteCompaction | crates/morons-server/src/run_supervisor.rs:701-836 | leaves the record legal: the summary operation is settled, the run concluded, or persistence failed |
| RunExecution.ExecuteSummary | crates/morons-server/src/run_supervisor.rs:701-836 | a dispatched compaction is settled whatever the provider returns, and success alone clears a context rejection |
| RunExecution.ExecuteToolCalls | crates/morons-server/src/run_supervisor.rs:838-957 | `Done(false)` means every call has its result in order and the run goes on; `Done(true)` that the run was ended |
| RunExecution.RunTool | crates/morons-server/src/run_supervisor.rs:838-957 | a prepared call is dispatched, run and completed once, or the run ends or aborts |
| RunExecution.Ledger.FinishRunFailure | crates/morons-server/src/run_supervisor.rs:507-520 | ends the run with the operation in flight only as the provider's answer allows, leaving nothing open |
| RunExecution.DispatchTurn | crates/morons-server/src/run_supervisor.rs:333-471 | one coding operation is prepared and marked dispatched, or the run is concluded without calling the provider |
| RunExecution.MarkDispatched | crates/morons-server/src/run_supervisor.rs:406-469 | a prepared operation is marked dispatched, or settled as stopped or failed by the reason it was not |
| RunExecution.ExecuteTurn | crates/morons-server/src/run_supervisor.rs:472-649 | after the provider call the operation is settled, every committed tool call answered, and the loop head restored with deltas and recovery flag carried over |
| RunExecution.FinishToolTurn | crates/morons-server/src/run_supervisor.rs:551-628 | a turn of tool calls is committed and every call answered before the next turn, or the run is ended |
| RunExecution.SettleProviderError | crates/morons-server/src/run_supervisor.rs:489-537 | a failed operation is settled once; the run continues only for a context rejection the store accepted |
| RunExecution.ExecuteRun | crates/morons-server/src/run_supervisor.rs:270-649 | for every sequence of store and provider outcomes the whole record is legal, so all theorems of `RunTrace` hold of it, and the call returns with the run concluded, aborted or still at a turn boundary |
| RunSupervisor.StepKeepsInv | crates/morons-server/src/run_supervisor.rs:175-268 | every atomic step of requests, tasks and shutdown keeps permits, lock, handles, cancellation and shutdown consistent |
| RunSupervisor.PermitsStep | crates/morons-server/src/run_supervisor.rs:175-223 | permits held by requests and busy tasks and those free always add up to four |
| RunSupervisor.AtMostFourRuns | crates/morons-server/src/run_supervisor.rs:175-223 | in every interleaving at most four runs are busy, and no permit is lost or minted |
| RunSupervisor.NoSpawnAfterSwap | crates/morons-server/src/run_supervisor.rs:242-268 | no step after shutdown has swapped the task set out ever spawns a task |
| RunSupervisor.ShutdownIsFinal | crates/morons-server/src/run_supervisor.rs:242-268 | once shutdown has returned no task is running and none is ever spawned, in every continuation |
| RunSupervisor.SwapReachesEveryExecution | crates/morons-server/src/run_supervisor.rs:242-256 | every task still inside its run at any time after the swap had a handle at the swap and is cancelled |
| RunSupervisor.FreshStartRuns | crates/morons-server/src/run_supervisor.rs:168-223 | with a permit and the lock free and no stop, a new run is spawned at once with its handle registered |
| SlotSupervisor.StepKeepsInv | crates/morons-server/src/login_supervisor.rs:94-226 | every atomic step of starters, joiners, tasks and shutdown keeps one permit, one lock holder and the registration of the working task, for both supervisors |
| SlotSupervisor.AtMostOneTask | crates/morons-server/src/maintenance_supervisor.rs:70-119 | in every interleaving at most one task works, and while nobody holds the lock it is the registered one |
| SlotSupervisor.NothingStartsOnceShutdownHasTheLock | crates/morons-server/src/maintenance_supervisor.rs:209-231 | from the moment shutdown holds the lock no task is ever spawned |
| SlotSupervisor.DrainWaitsForTheWorker | crates/morons-server/src/maintenance_supervisor.rs:209-243 | whoever still works while shutdown drains is the task it waits for, and is cancelled |
| SlotSupervisor.ShutdownIsFinal | crates/morons-server/src/login_supervisor.rs:204-221 | once shutdown has returned nothing works and nothing starts, in every continuation, for login and for maintenance |
| SlotSupervisor.FreshStartWorks | crates/morons-server/src/maintenance_supervisor.rs:70-119 | with the slot free and no stop, a start leads to a working, registered task in both supervisors |
| Subscription.InOrderStep | crates/morons-server/src/connection.rs:249-287 | every step keeps the received events equal to the log from the starting cursor to the reader's position |
| Subscription.AwakeStep | crates/morons-server/src/connection.rs:304-359 | every step keeps the reader's marks honest: a commit it may not know of is announced, unannounced or about to be |
| Subscription.GatedStep | crates/morons-server/src/application/events.rs:83-123 | every step keeps the reader's knowledge of runs equal to what it has sent |
| Subscription.ReceivedIsTheLog | crates/morons-server/src/connection.rs:249-287 | however commits, notifications and reads interleave, what a subscriber received is the log after its cursor, with no gap, duplicate or reordering, and all of it up to the cursor while the stream is open |
| Subscription.WakeUpIsLostExactlyWhen | crates/morons-server/src/connection.rs:413-446 | in every run a sleeping reader with something to read can be woken if and only if something was published since it last marked what it had seen; a notification the worker still owes for an appended batch wakes it, and with the worker idle it sleeps on exactly when in that time a batch's high water could not be read and nothing was published |
| Subscription.NoLostWakeUp | crates/morons-server/src/connection.rs:413-446 | with no commit left unannounced, a sleeping reader with something to read can be woken now, or after the notification the worker still owes |
| Subscription.OnlyMissesGoUnannounced | crates/morons-server/src/persistence/mod.rs:1011-1030 | a commit is left unannounced only by a notification whose high water could not be read |
| Subscription.UnreadHighWaterLosesAWakeUp | crates/morons-server/src/persistence/mod.rs:1011-1030 | a concrete run of the failing kind: one high water that could not be read leaves the reader asleep before an event |
| Subscription.ReaderCatchesUp | crates/morons-server/src/connection.rs:249-287 | left alone, the reader can go on until it sleeps, under every schedule of its steps and every page size; no schedule is longer than its distance from the end, and when it sleeps it has sent the whole log |
| Subscription.DiagnosticFollowsItsFailure | crates/morons-server/src/application/events.rs:106-111 | a diagnostic is sent only after the durable native failure of its run, with no other run change sent in between |
| Subscription.DeltasBelongToTheLiveRun | crates/morons-server/src/application/events.rs:113-122 | a delta sent after a run change belongs to the live run of that change, or to another run when that run has ended |
| Subscription.DiagnosticsAreConsideredCaughtUp | crates/morons-server/src/connection.rs:353-359 | when a pending diagnostic is considered, the failure committed before it has already been sent |
| Control.StepKeepsInv | crates/morons-protocol/src/control.rs:319-388 | every system call of servers and clients, and every crash, keeps the lock, the files, the holder's rights and the history consistent |
| Control.AtMostOneServer | crates/morons-protocol/src/control.rs:528-561 | over any interleaving of servers, crashes and probes at most one server is past the host lock |
| Control.RegistrationIsTheHoldersOwn | crates/morons-protocol/src/control.rs:359-388 | from stale cleanup until drop the registration is absent or the holder's own, and while published it is the holder's own |
| Control.DropRemovesItsOwn | crates/morons-protocol/src/control.rs:377-388 | the registration a drop removes is its own |
| Control.CleanupRemovesTheDead | crates/morons-protocol/src/control.rs:658-671 | the registration stale cleanup removes was published by a server that is gone |
| Control.OpenFileStays | crates/morons-protocol/src/control.rs:636-656 | the contents of a registration a client has open never change under it |
| Control.ClientParsesWhatItOpened | crates/morons-protocol/src/control.rs:280-302 | a client that returns `Registered` parsed exactly one complete registration, the one in place when it opened the file |
| Control.RegisteredWasInPlace | crates/morons-protocol/src/control.rs:280-302 | behind every finished `Registered` answer there is a moment of the run at which that registration was its living holder's and in place, and this client opened it |
| Control.HistoryWasInPlace | crates/morons-protocol/src/control.rs:600-634 | every registration on record was once in place, complete, while its server held the lock |
| Control.PublicationSucceeds | crates/morons-protocol/src/control.rs:359-374 | a server that holds the root and finds no registration ends published, its complete registration in place and no temporary file left |
| Authentication.DecodeEncode | crates/morons-protocol/src/authentication.rs:250-318 | decoding an encoded record gives that record back |
| Authentication.EncodeDecode | crates/morons-protocol/src/authentication.rs:283-318 | a payload that decodes is the encoding of the record it decodes to |
| Authentication.MacInputInjective | crates/morons-protocol/src/authentication.rs:540-556 | the MAC input determines role, host epoch and both nonces |
| Authentication.StepKeepsInv | crates/morons-protocol/src/authentication.rs:321-418 | every step of any client, server or network keeps proofs authored, verdicts proved and nonces identifying |
| Authentication.RunKeepsInv | crates/morons-protocol/src/authentication.rs:321-418 | the invariant holds over a network that drops, reorders and replays records |
| Authentication.AuthenticatedClientHasServer | crates/morons-protocol/src/authentication.rs:321-379 | a client that returns `Ok` has a server session that issued its nonce under the same epoch and accepted this client's nonce |
| Authentication.AcceptingServerHasClient | crates/morons-protocol/src/authentication.rs:382-418 | a server that accepts was answered by a client session for the same epoch and nonces |
| Authentication.AgreementIsInjective | crates/morons-protocol/src/authentication.rs:321-418 | two authenticated clients never share one server session |
| Authentication.HonestExchangeSucceeds | crates/morons-protocol/src/authentication.rs:321-418 | when the network delivers, the exchange ends in `Ok` on both sides from every reachable state |
| Lifecycle.StartupInitializationProgress.Observe | crates/morons-cli/src/lifecycle.rs:29-36 | feedback is due at the first `Starting` only, and leaving is reported at the first other discovery after one |
| Lifecycle.ProperExtends | crates/morons-cli/src/lifecycle.rs:217-317 | a proper record of a call stays proper when a justified event is added |
| Lifecycle.Note | crates/morons-cli/src/lifecycle.rs:250-261 | a discovery is recorded, feedback given once, and the deadline restarted exactly when an initialization ended |
| Lifecycle.Look | crates/morons-cli/src/lifecycle.rs:228-249 | a companion that exited is given up on exactly after two seconds of finding nothing or an incomplete control root |
| Lifecycle.Act | crates/morons-cli/src/lifecycle.rs:263-299 | `Absent` always goes on, `Starting` ends only a debug call that launched nothing, `Incomplete` ends exactly after its two seconds, `Registered` ends in a connection or goes on unreachable |
| Lifecycle.Launch | crates/morons-cli/src/lifecycle.rs:301-309 | the companion is started at most once and only where discovery allows it |
| Lifecycle.ConnectOrStart | crates/morons-cli/src/lifecycle.rs:217-317 | every call ends with at most one companion, started only after `Absent` or an unreachable registration; feedback exactly once if `Starting` was ever seen; no timeout after `Starting` or before a full period since it ended; no complaint about incomplete control before two seconds of nothing else; debug success names the process this call started |
| Viewport.VisibleRange | crates/morons-cli/src/app/viewport.rs:207-223 | dropping `local_scroll` rows of the visible blocks and keeping `height` gives exactly the rows of the flat transcript from `top` |
| Viewport.RenamedRows | crates/morons-cli/src/app/viewport.rs:121-129 | renaming block keys renames rows and changes nothing else |
| Viewport.KeptTop | crates/morons-cli/src/app/viewport.rs:88-119 | the kept row is at the top of the screen unless clamped to the end of the content |
| Viewport.TranscriptViewport.UpdateLayout | crates/morons-cli/src/app/viewport.rs:67-119 | the blocks become the measurement, contiguous and summed; following stays at the end; otherwise the reader stays at the same key at row min(old row, new height - 1) up to clamping |
| Viewport.TranscriptViewport.Measure | crates/morons-cli/src/app/viewport.rs:73-87 | the prefix sums of the measured heights lay the blocks out contiguously |
| Viewport.TranscriptViewport.ReplaceTransient | crates/morons-cli/src/app/viewport.rs:121-129 | a preview block takes its committed key and no row moves |
| Viewport.TranscriptViewport.ScrollLinesUp | crates/morons-cli/src/app/viewport.rs:146-157 | the top moves up by the rows asked, not past the first row, and following ends |
| Viewport.TranscriptViewport.ScrollLinesDown | crates/morons-cli/src/app/viewport.rs:159-168 | the top moves down, not past the last screen, where following resumes |
| Viewport.TranscriptViewport.VisibleBlockRange | crates/morons-cli/src/app/viewport.rs:207-223 | the blocks found by search show exactly the naive screenful |
| Viewport.CommitThenDraw | crates/morons-cli/src/app/viewport.rs:73-129 | the reader's place survives a preview turning into its committed entry followed by a relayout |
| Session.WindowSourceBytes | crates/morons-cli/src/transcript_budget.rs:38-44 | the checked sum is the budget of the entries and fails exactly when it exceeds the limit of the machine or the window |
| Session.KnownAfterUpdate | crates/morons-cli/src/app/transcript.rs:152-199 | replacing the first summary of a run changes what is known of that run and of no other |
| Session.KnownAfterRetain | crates/morons-cli/src/app/transcript.rs:152-199 | dropping the summaries of one run leaves what is known of every other |
| Session.CancellationAbsorbsIff | crates/morons-cli/src/app.rs:1377-1402 | recording a cancellation answer leaves ended runs ended if and only if the known run has not ended or the answer repeats its state |
| Session.CancellationCanReviveARun | crates/morons-cli/src/app.rs:1377-1402 | a concrete answer that moves an ended run back to a live state, since no transition is checked |
| Session.ExtendedPreviewAccurate | crates/morons-cli/src/app/transcript.rs:228-260 | one more delta keeps the preview the concatenation of consecutive deltas, and truncation happens only at a gap, a pause or 128 KiB |
| Session.UnmissedPreviewStopsOnlyForSize | crates/morons-cli/src/app/transcript.rs:228-260 | given every delta the server numbered from the baseline on and never paused, a preview is truncated if and only if its text exceeds 128 KiB |
| Session.SessionView.New | crates/morons-cli/src/app/transcript.rs:25-89 | an accepted window gives a view with exact byte accounting, bounded entries and runs, and a live active run |
| Session.SessionView.DeferTranscriptEntry | crates/morons-cli/src/app/transcript.rs:95-110 | an entry left for later changes no entry and marks that newer output exists |
| Session.SessionView.AppendTranscriptEntry | crates/morons-cli/src/app/transcript.rs:112-149 | succeeds exactly when the entry fits a window by itself and is listed already, left for later or can be laid out; it is added once and only within 128 entries and 1 MiB, otherwise deferred; the preview of its run goes away |
| Session.SessionView.ApplyRun | crates/morons-cli/src/app/transcript.rs:152-199 | succeeds exactly on the summaries the view can hold; no run leaves a terminal state, a summary is dropped only when it repeats the end of a run in a historical window without entries of it, other runs are untouched, and active work follows the summary |
| Session.EndedRunStaysUnlessDropped | crates/morons-cli/src/app/transcript.rs:152-199 | over any accepted summaries a run that had ended stays listed in the state it ended in if and only if no historical window drops it |
| Session.DroppedRunCanComeBack | crates/morons-cli/src/app/transcript.rs:180-187 | two accepted changes that bring an ended run back to life: the repeated end drops it, the next summary lists it anew |
| Session.SessionView.PausePreview | crates/morons-cli/src/app/transcript.rs:212-217 | a paused preview is marked truncated and keeps its text |
| Session.SessionView.AppendDelta | crates/morons-cli/src/app/transcript.rs:219-260 | a delta is accepted exactly for the active run with a higher number, and the preview stays accurate |
| ClientApp.OverlayKnownRuns | crates/morons-cli/src/app.rs:1071-1118 | runs the client already knows keep their known state on an older page |
| ClientApp.ResolvedRunsStayLive | crates/morons-cli/src/app.rs:1377-1402 | recording a cancellation answer keeps every other live run live, and this one unless the answer ends it |
| ClientApp.AppState.OpenSessionWindow | crates/morons-cli/src/app.rs:1016-1069 | a window is accepted exactly when its view can be built, and then replaces the session by a consistent view |
| ClientApp.AppState.InstallTranscriptWindow | crates/morons-cli/src/app.rs:1071-1118 | a page is installed exactly when it belongs to the session and its view can be built; one that is not the latest changes neither active work nor the state of any known run |
| ClientApp.AppState.CancellationResolved | crates/morons-cli/src/app.rs:1377-1402 | writes the answer to the known run only and forgets the active run exactly when it ended |
| ClientApp.AppState.ApplyEvent | crates/morons-cli/src/app.rs:1150-1296 | says exactly which events are accepted; every accepted event keeps the state consistent and leaves an ended run in the state it ended in, unless a historical window drops it |
| ClientApp.RunEvents | crates/morons-cli/src/app.rs:1150-1296 | a list of accepted events of any length ends in a consistent state whose runs are what their summaries, applied in order, make of the first ones |
| Utf8Text.EscapingAtMostDoubles | crates/morons-server/src/project_context.rs:66-92 | JSON escaping at most doubles a text without control characters |
| Utf8Text.Floor | crates/morons-server/src/project_context.rs:132-141 | cutting at a character boundary gives the longest prefix within the limit |
| ProjectContext.ReserveSuffices | crates/morons-server/src/project_context.rs:257-263 | warnings within their limits cost at most the reserve of 16 times (512 * 2 + 3) bytes |
| ProjectContext.Warning | crates/morons-server/src/project_context.rs:132-141 | a warning is never empty, at most 512 bytes and free of control characters whatever the path |
| ProjectContext.TextInjective | crates/morons-server/src/project_context.rs:215-218 | distinct directories give distinct file paths |
| ProjectContext.ReadFile | crates/morons-server/src/project_context.rs:285-335 | a file is read exactly when it is loadable within the limit and the deadline holds |
| ProjectContext.AcceptKeepsGrowing | crates/morons-server/src/project_context.rs:250-264 | a file accepted under the reduced bound keeps every limit, whatever warnings come later |
| ProjectContext.Load | crates/morons-server/src/project_context.rs:243-267 | a candidate is kept with its exact text or refused with a warning |
| ProjectContext.Visit | crates/morons-server/src/project_context.rs:218-269 | of each directory only the first present candidate is considered, once |
| ProjectContext.Walk | crates/morons-server/src/project_context.rs:205-271 | the files loaded are guidance the directories offer, in order; without a warning, all of it |
| ProjectContext.Discover | crates/morons-server/src/project_context.rs:197-271 | for every stable file system, directory and clock the context satisfies `is_valid`, loads only offered guidance in order, and all of it when nothing is warned about |
| ProjectContext.DiscoverForRun | crates/morons-server/src/project_context.rs:166-195 | the service returns a valid context whether switched off, finished or cut short |
| Skills.BeforeIsTotal | crates/morons-server/src/skills.rs:148-155 | the order of names as bytes is a strict total order |
| Skills.MergePrecedence | crates/morons-server/src/skills.rs:698-725 | a single candidate replaces its name and a collision removes it, every other name stays |
| Skills.OneMoreLevel | crates/morons-server/src/skills.rs:251-268 | adding a level keeps the catalogue deciding each name at its highest level |
| Skills.MergeLevels | crates/morons-server/src/skills.rs:251-266 | each name maps to the unique candidate at the highest level that has it, or to nothing on a collision there |
| Skills.ActiveSkillNames | crates/morons-server/src/skills.rs:727-739 | the invoked installed names, each once, in the order first invoked |
| Skills.InvokedAmongFewer | crates/morons-server/src/skills.rs:79-91 | with fewer skills installed the invoked names are the same in the same order, less the missing |
| Skills.FirstFewSurvive | crates/morons-server/src/skills.rs:79-91 | shrinking the installed set never pushes a remaining name out of the first four |
| Skills.Select | crates/morons-server/src/skills.rs:283-345 | a prefix of the catalogue whose metadata fits, each skill active exactly when wanted and its instructions still fit |
| Skills.SelectionMatches | crates/morons-server/src/skills.rs:79-91 | the checker agrees with every activation although it sees only the skills that survived |
| Skills.DeveloperTextFits | crates/morons-server/src/skills.rs:161-208 | the separate limits already keep the whole developer text within 512 KiB |
| Skills.SelectionIsValid | crates/morons-server/src/skills.rs:101-159 | the selection passes every clause of the checker if and only if the active instructions parse again |
| Skills.IsAccepted | crates/morons-server/src/skills.rs:101-159 | the one-pass checker accepts exactly the valid catalogues |
| Skills.Discover | crates/morons-server/src/skills.rs:251-358 | the result is valid, its activations pass the checker, and it is empty only when some active instructions do not parse again |
| ProviderInput.ProviderCallId | crates/morons-server/src/run_supervisor.rs:1312-1321 | the hexadecimal name of a call |
| ProviderInput.CallNamesIdentify | crates/morons-server/src/run_supervisor.rs:1312-1321 | equal names if and only if equal calls, so a result carries its own call's name and no other's |
| ProviderInput.BuildProviderInput | crates/morons-server/src/run_supervisor.rs:1057-1240 | succeeds exactly when every entry can be sent and the continuation is used up, and is then the preamble followed by each entry's piece in order |
| ProviderInput.EveryEntryInOrder | crates/morons-server/src/run_supervisor.rs:1116-1217 | reasoning aside, the request is the rendering of every entry, once each and in order |
| ProviderInput.ReasoningOnceBeforeItsCall | crates/morons-server/src/run_supervisor.rs:1118-1132 | saved reasoning appears exactly once, directly before the first call of its operation |
| ProviderInput.NoRoomForRepeats | crates/morons-server/src/run_supervisor.rs:1223-1228 | a list without repeats drawn from a list of the same length is that list rearranged |
| ProviderInput.EachContinuationHasItsCall | crates/morons-server/src/run_supervisor.rs:1160-1228 | with distinct calls equal counts make a bijection: each saved continuation is attached to exactly its own call |
| Continuations.RunKeepsInv | crates/morons-server/src/run_supervisor.rs:580-605 | over all tool turns and clearings of a run the saved continuations are those of calls in the transcript, in its order, and the saved reasoning has its call |
| Continuations.CarriedIsUsedUp | crates/morons-server/src/run_supervisor.rs:270-605 | whatever a run has behind it, the continuation it carries is used up by its next request, which fails only for an entry that cannot be sent |
| Continuations.CallsKeepTheirContinuation | crates/morons-server/src/run_supervisor.rs:580-605 | until the continuation is cleared every call of every turn goes back with exactly what the provider attached to it, or with nothing if it attached nothing |
| Continuations.SavedAfterTurn | crates/morons-server/src/run_supervisor.rs:588-597 | one more turn saves its own calls' continuations and leaves those of older calls as they were |
| ImageMessage.ValidImageAttachments | crates/morons-cli/src/sessions.rs:255-304 | the one-pass check accepts exactly the lists that are valid attachment by attachment |
| ImageMessage.MultimodalUserMessage | crates/morons-server/src/run_supervisor.rs:1242-1280 | succeeds exactly when every marker end splits the text; the parts then concatenate to the text and each image follows its own non-empty piece |
| ImageMessage.AcceptedAttachmentsSplit | crates/morons-cli/src/sessions.rs:255-304 | what the client accepts the server can split once the images are stored |
| ImageMessage.PartsEndInTheirMarker | crates/morons-cli/src/sessions.rs:293-300 | each such piece ends in its image's marker |
| Framing.HeaderRoundTrip | crates/morons-protocol/src/framing.rs:121-166 | the four-byte big-endian length reads back |
| Framing.HeaderUnique | crates/morons-protocol/src/framing.rs:121-166 | every four bytes are the header of the length they read as |
| Framing.Writer.WriteFrame | crates/morons-protocol/src/framing.rs:121-142 | one whole frame is written or nothing, with the size error |
| Framing.Reader.ReadFrame | crates/morons-protocol/src/framing.rs:144-166 | one read consumes exactly what the parser of the stream's front says |
| Framing.CutStreamYieldsPrefix | crates/morons-protocol/src/framing.rs:121-180 | any byte prefix of written frames yields exactly a prefix of the payloads, then the end on a frame boundary and an error otherwise |
| Framing.WholeStreamRoundTrip | crates/morons-protocol/src/framing.rs:121-180 | the uncut stream yields every payload |
| Framing.CleanStreamIsAnEncoding | crates/morons-protocol/src/framing.rs:144-180 | a stream that reads cleanly to its end is the encoding of what was read |

## Left out

- RunExecution.ExecuteRun: the loop is followed for any finite number of turns given by a parameter, because a provider may keep a run going for ever; every finite part of a run is covered.
- Lifecycle.ConnectOrStart: the number of times another initializer is seen at work is a parameter, because the program waits for it without limit; the errors of connecting, authenticating and greeting are one error.
- Subscription.NoLostWakeUp: assumes that the store gives unforced events numbers above everything announced before; reserving a number before an archive completes belongs to the store, which is an append-only list here.
- Continuations.CarriedIsUsedUp: call identifiers of new calls are taken to be new, as random identifiers under a unique key are, and the transcript of a run only to grow until a compaction; inside `RunExecution.ExecuteRun` building the request is an arbitrary result.
- ProviderInput.EachContinuationHasItsCall: requires distinct call identifiers in the transcript, which the store guarantees; encoding tool schemas and tool arguments is a value that may be missing.
- ProjectContext.Discover: paths are sequences of components, so redundant separators are not represented; the fixed phrases of warnings are a parameter of bounded length, and one failure covers the several ways a file cannot be opened.
- Skills.Discover: walking directories and parsing SKILL.md and YAML are not modelled; what parsing guarantees is assumed of the candidates, and whether instructions parse again is a function.
- Control.ClientParsesWhatItOpened: host epochs of different servers are taken to differ; permissions, directory creation and the identity checks on files are not modelled.
- Authentication.AuthenticatedClientHasServer: the MAC is ideal (HMAC as in RFC 2104 is not computed): a proof verifies only if a session computed it for that input; fresh nonces are taken to be new.
- Viewport.TranscriptViewport.UpdateLayout: heights are machine integers with saturating sums; how a block is measured and drawn is a parameter.
- Session.SessionView.AppendDelta: whether a text can be laid out is a parameter, and methods may leave the view changed when they return an error, after which the client stops using it.
- ImageMessage.ValidImageAttachments: which characters a display name may hold is a predicate given from outside.
- The SQLite store, the providers, tool executors, the renderer and the request worker: nondeterministic answers stand for them.
- Command supervisor: its start does not test the stop flag again under its lock, so the draining shown for the other supervisors is not claimed for it.
- A client probe may hold the host lock for a moment, so the refusal of a second server is not read as proof that one exists.
- Compaction activity events, session catalogue paging, steering mutations, debug logging and the text of errors.
- Sockets, the async runtime, file permissions, process spawning, clipboard and image codecs.
- Run summary fields other than identifier, state and cancellation request; usage counters of provider turns.
