/**
 * Durable event subscriptions (crates/morons-server/src/connection.rs): a reader that pages through an
 * append-only log and sleeps on a watch channel, against a store worker that commits and only then
 * notifies.  Session subscribers also receive live deltas and native diagnostics, which are not durable
 * and are filtered by what the durable stream has said.
 */
module Subscription {
  import opened Basics

  datatype Stream = Catalog | Session | Steering

  /** Events fetched by one read. */
  function PageSize(stream: Stream): nat
  {
    match stream case Catalog => 100 case Session => 8 case Steering => 128
  }

  datatype Change = Live | Ended | NativeFailure

  /** `Hidden` events advance the cursor and are not sent. */
  datatype Event = RunChanged(run: nat, change: Change) | Hidden | Other(id: nat)

  datatype Sent = Durable(event: Event) | Delta(run: nat) | Diagnostic(run: nat)

  /** A diagnostic published after the failure event at `at` was committed. */
  datatype Notice = Notice(run: nat, at: nat)

  /** The store worker between two commands, or after a commit it has not yet announced. */
  datatype Worker = Idle | Notifying(force: bool, appended: bool)

  datatype Phase = Marking | Reading | Delivering(page: seq<Event>) | Checking | Blocked | Closed

  /**
   * `published` and `version` are the watch channel, `observed` and `seen` what the reader last took
   * from it.  `base` is the length of the log at that moment, `reached` how much of it has been sent,
   * and `unannounced` says that a commit was never announced because the high water could not be read.
   */
  datatype State = State(
    stream: Stream,
    log: seq<Event>, highWater: nat, worker: Worker, unannounced: bool,
    published: nat, version: nat,
    start: nat, cursor: nat, observed: nat, seen: nat, phase: Phase, base: nat, reached: nat,
    active: Option<nat>, terminal: Option<nat>, nativeFailure: bool,
    inbox: seq<Notice>, pending: Option<Notice>,
    sent: seq<Sent>)

  /**
   * A stream just opened on any store: idle, about to announce a commit, or with one never announced,
   * whose events the starting cursor may already be past.
   */
  predicate Opens(s: State)
  {
    && s.phase.Marking? && s.start == s.cursor == s.reached <= |s.log| && s.base <= |s.log|
    && s.published <= s.highWater && s.seen == s.version && s.observed == s.published
    && (s.worker.Notifying? && s.worker.appended && !s.worker.force ==> s.highWater > s.published)
    && s.active.None? && s.terminal.None? && !s.nativeFailure && s.inbox == [] && s.pending.None? && s.sent == []
  }

  function Subscribed(stream: Stream, log: seq<Event>, highWater: nat, version: nat, start: nat): State
  {
    State(stream, log, highWater, Idle, false, highWater, version, start, start, highWater, version, Marking, 0, start,
          None, None, false, [], None, [])
  }

  datatype Step =
    | Commit(events: seq<Event>, highWater: nat, force: bool)
    | Notify
    | NotifyFails
    | Publish(at: nat)
    | Mark
    | Read(count: nat)
    | Deliver(written: bool)
    | Check(written: bool)
    | Wake
    | WakeForActivity
    | ReceiveDiagnostic
    | ReceiveDelta(run: nat, written: bool)
    | Close

  predicate Enabled(s: State, step: Step)
  {
    match step
    // The store gives unforced events sequence numbers above everything announced so far.
    case Commit(events, highWater, force) =>
      s.worker.Idle? && highWater >= s.highWater && (events != [] && !force ==> highWater > s.highWater)
    case Notify => s.worker.Notifying?
    case NotifyFails => s.worker.Notifying?
    case Publish(at) =>
      s.stream.Session? && at < |s.log| && s.log[at].RunChanged? && s.log[at].change.NativeFailure?
    case Mark => s.phase.Marking?
    case Read(count) =>
      && s.phase.Reading? && s.cursor + count <= |s.log| && count <= PageSize(s.stream)
      && (count == 0 ==> s.cursor == |s.log|)
    case Deliver(_) => s.phase.Delivering?
    case Check(_) => s.phase.Checking?
    case Wake => s.phase.Blocked? && s.version != s.seen
    case WakeForActivity => s.stream.Session? && s.phase.Blocked?
    case ReceiveDiagnostic => s.stream.Session? && s.phase.Blocked? && s.inbox != []
    case ReceiveDelta(_, _) => s.stream.Session? && s.phase.Blocked?
    case Close => true
  }

  // ----- the store worker -----

  function NotifyWatchers(s: State): State
    requires s.worker.Notifying?
  {
    if s.worker.force || s.highWater > s.published then
      s.(worker := Idle, published := s.highWater, version := s.version + 1, unannounced := false)
    else s.(worker := Idle)
  }

  // ----- the reader -----

  function Advance(s: State, event: Event): State
  {
    var moved := s.(cursor := s.cursor + 1);
    if event.RunChanged? then
      var native := event.change.NativeFailure?;
      if event.change.Live? then moved.(nativeFailure := native, active := Some(event.run), terminal := None)
      else moved.(nativeFailure := native, terminal := Some(event.run),
                  active := if s.active == Some(event.run) then None else s.active)
    else moved
  }

  predicate AcceptsDiagnostic(s: State, d: Notice)
  {
    s.nativeFailure && s.active.None? && s.terminal == Some(d.run)
  }

  predicate AcceptsDelta(s: State, run: nat)
  {
    s.terminal != Some(run) && (s.active.Some? ==> s.active.value == run)
  }

  predicate Shown(stream: Stream, event: Event)
  {
    !(stream.Session? && event.Hidden?)
  }

  /** The catalog and steering loops write before they advance, the session loop after. */
  function DeliverOne(s: State, written: bool): State
    requires s.phase.Delivering?
  {
    if s.phase.page == [] then s.(phase := Marking)
    else
      var event := s.phase.page[0];
      var advanced := Advance(s, event);
      if !Shown(s.stream, event) then
        advanced.(phase := Delivering(s.phase.page[1..]), reached := s.reached + 1)
      else if written then
        advanced.(phase := Delivering(s.phase.page[1..]), reached := s.reached + 1, sent := s.sent + [Durable(event)])
      else if s.stream.Session? then advanced.(phase := Closed)
      else s.(phase := Closed)
  }

  function CheckAndSleep(s: State, written: bool): State
  {
    if s.published != s.observed then s.(phase := Marking)
    else if s.pending.Some? && AcceptsDiagnostic(s, s.pending.value) then
      if written then s.(phase := Blocked, pending := None, sent := s.sent + [Diagnostic(s.pending.value.run)])
      else s.(phase := Closed, pending := None)
    else s.(phase := Blocked, pending := None)
  }

  function Perform(s: State, step: Step): State
    requires Enabled(s, step)
  {
    match step
    case Commit(events, highWater, force) =>
      s.(log := s.log + events, highWater := highWater, worker := Notifying(force, events != []))
    case Notify => NotifyWatchers(s)
    case NotifyFails => s.(worker := Idle, unannounced := s.unannounced || s.worker.appended)
    case Publish(at) => s.(inbox := s.inbox + [Notice(s.log[at].run, at)])
    case Mark => s.(phase := Reading, observed := s.published, seen := s.version, base := |s.log|)
    case Read(count) => s.(phase := if count == 0 then Checking else Delivering(s.log[s.cursor..s.cursor + count]))
    case Deliver(written) => DeliverOne(s, written)
    case Check(written) => CheckAndSleep(s, written)
    case Wake => s.(phase := Marking, seen := s.version)
    case WakeForActivity => s.(phase := Marking)
    case ReceiveDiagnostic => s.(phase := Marking, inbox := s.inbox[1..], pending := Some(s.inbox[0]))
    case ReceiveDelta(run, written) =>
      if !AcceptsDelta(s, run) then s.(phase := Marking)
      else if written then s.(phase := Marking, active := Some(run), sent := s.sent + [Delta(run)])
      else s.(phase := Closed, active := Some(run))
    case Close => s.(phase := Closed)
  }

  function Apply(s: State, step: Step): State
  {
    if Enabled(s, step) then Perform(s, step) else s
  }

  function Run(s: State, steps: seq<Step>): State
    decreases |steps|
  {
    if steps == [] then s else Run(Apply(s, steps[0]), steps[1..])
  }

  // ----- what has been received -----

  function Durables(sent: seq<Sent>): seq<Event>
  {
    if sent == [] then []
    else Durables(sent[..|sent| - 1]) + (if sent[|sent| - 1].Durable? then [sent[|sent| - 1].event] else [])
  }

  function Visible(stream: Stream, log: seq<Event>): seq<Event>
  {
    if log == [] then []
    else Visible(stream, log[..|log| - 1]) + (if Shown(stream, log[|log| - 1]) then [log[|log| - 1]] else [])
  }

  /** The last run change a subscriber has been told. */
  function LastChange(sent: seq<Sent>): Option<Event>
  {
    if sent == [] then None
    else
      var last := sent[|sent| - 1];
      if last.Durable? && last.event.RunChanged? then Some(last.event) else LastChange(sent[..|sent| - 1])
  }

  /** A diagnostic or delta is justified by the run change last sent before it. */
  predicate Justified(before: seq<Sent>, item: Sent)
  {
    match item
    case Durable(_) => true
    case Diagnostic(run) => LastChange(before) == Some(RunChanged(run, NativeFailure))
    case Delta(run) =>
      match LastChange(before)
      case None => true
      case Some(e) => e.RunChanged? && (if e.change.Live? then e.run == run else e.run != run)
  }

  ghost predicate AllJustified(sent: seq<Sent>)
  {
    forall k :: 0 <= k < |sent| ==> Justified(sent[..k], sent[k])
  }

  // ----- the invariant -----

  /** The received events are exactly the log from the starting cursor on, as far as it was sent. */
  ghost predicate InOrder(s: State)
  {
    && s.start <= s.reached <= s.cursor <= |s.log|
    && (!s.phase.Closed? ==> s.reached == s.cursor)
    && (s.phase.Delivering? ==> s.cursor + |s.phase.page| <= |s.log| && s.phase.page == s.log[s.cursor..s.cursor + |s.phase.page|])
    && Durables(s.sent) == Visible(s.stream, s.log[s.start..s.reached])
  }

  /** The commits the reader may not know of are announced, or will be. */
  ghost predicate Awake(s: State)
  {
    && s.published <= s.highWater && s.seen <= s.version && s.base <= |s.log|
    && (s.worker.Notifying? && s.worker.appended && !s.worker.force ==> s.highWater > s.published)
    && (|s.log| > s.base && (s.phase.Reading? || s.phase.Checking? || s.phase.Blocked?) ==>
          s.version != s.seen || s.unannounced || (s.worker.Notifying? && s.worker.appended))
    && (s.phase.Checking? || s.phase.Blocked? ==> s.cursor >= s.base)
  }

  /** What the reader knows about runs is what it has been sent, and the diagnostics it holds are old news. */
  ghost predicate Gated(s: State)
  {
    && AllJustified(s.sent)
    && (!s.phase.Closed? ==>
          match LastChange(s.sent)
          case None => !s.nativeFailure && s.terminal.None?
          case Some(e) =>
            && e.RunChanged? && s.nativeFailure == e.change.NativeFailure?
            && (if e.change.Live? then s.terminal.None? && s.active == Some(e.run) else s.terminal == Some(e.run)))
    && (forall d :: d in s.inbox ==> d.at < |s.log|)
    && (s.pending.Some? ==> s.pending.value.at < |s.log|)
    && (s.pending.Some? && (s.phase.Reading? || s.phase.Checking?) ==> s.pending.value.at < s.base)
  }

  ghost predicate Inv(s: State)
  {
    InOrder(s) && Awake(s) && Gated(s)
  }

  lemma {:induction false} VisibleExtends(stream: Stream, log: seq<Event>, from: nat, to: nat)
    requires from <= to < |log|
    ensures Visible(stream, log[from..to + 1]) == Visible(stream, log[from..to]) + (if Shown(stream, log[to]) then [log[to]] else [])
  {
    assert log[from..to + 1][..to - from] == log[from..to];
  }

  lemma {:induction false} DurablesExtend(sent: seq<Sent>, item: Sent)
    ensures Durables(sent + [item]) == Durables(sent) + (if item.Durable? then [item.event] else [])
  {
    assert (sent + [item])[..|sent|] == sent;
  }

  lemma {:induction false} LastChangeExtends(sent: seq<Sent>, item: Sent)
    ensures LastChange(sent + [item]) == if item.Durable? && item.event.RunChanged? then Some(item.event) else LastChange(sent)
  {
    assert (sent + [item])[..|sent|] == sent;
  }

  lemma {:induction false} JustifiedExtends(sent: seq<Sent>, item: Sent)
    requires AllJustified(sent) && Justified(sent, item)
    ensures AllJustified(sent + [item])
  {
    hide Justified;
    var longer := sent + [item];
    forall k | 0 <= k < |longer| ensures Justified(longer[..k], longer[k]) {
      if k < |sent| {
        assert longer[..k] == sent[..k];
      } else {
        assert longer[..k] == sent;
      }
    }
  }

  lemma {:induction false} AdvanceMovesOn(s: State, event: Event)
    ensures var next := Advance(s, event);
            && next.cursor == s.cursor + 1 && next.log == s.log && next.start == s.start && next.reached == s.reached
            && next.stream == s.stream && next.sent == s.sent && next.phase == s.phase
  {
  }

  lemma {:induction false} InOrderCommit(s: State, events: seq<Event>, highWater: nat, force: bool)
    requires InOrder(s) && Enabled(s, Commit(events, highWater, force))
    ensures InOrder(Perform(s, Commit(events, highWater, force)))
  {
    hide Durables, Visible;
    var longer := s.log + events;
    assert longer[s.start..s.reached] == s.log[s.start..s.reached];
    if s.phase.Delivering? {
      assert longer[s.cursor..s.cursor + |s.phase.page|] == s.log[s.cursor..s.cursor + |s.phase.page|];
    }
  }

  lemma {:induction false} InOrderDeliver(s: State, written: bool)
    requires InOrder(s) && s.phase.Delivering?
    ensures InOrder(DeliverOne(s, written))
  {
    hide Durables, Visible, Advance, Shown;
    if s.phase.page != [] {
      AdvanceMovesOn(s, s.phase.page[0]);
      assert s.phase.page[0] == s.log[s.cursor];
      assert s.log[s.cursor + 1..s.cursor + |s.phase.page|] == s.phase.page[1..];
      VisibleExtends(s.stream, s.log, s.start, s.cursor);
      DurablesExtend(s.sent, Durable(s.phase.page[0]));
    }
  }

  lemma {:induction false} InOrderCheck(s: State, written: bool)
    requires InOrder(s) && s.phase.Checking?
    ensures InOrder(CheckAndSleep(s, written))
  {
    hide Durables, Visible, AcceptsDiagnostic;
    if s.pending.Some? { DurablesExtend(s.sent, Diagnostic(s.pending.value.run)); }
  }

  /** Nothing but the phase, the marks and live items of the reader changes. */
  lemma {:induction false} InOrderElsewhere(s: State, next: State)
    requires InOrder(s) && next.log == s.log && next.stream == s.stream && next.start == s.start
    requires next.cursor == s.cursor && next.reached == s.reached && Durables(next.sent) == Durables(s.sent)
    requires s.phase.Closed? ==> next.phase.Closed?
    requires next.phase.Delivering? ==>
               next.phase == s.phase
               || (next.cursor + |next.phase.page| <= |s.log| && next.phase.page == s.log[s.cursor..s.cursor + |next.phase.page|])
    ensures InOrder(next)
  {
    hide Durables, Visible;
  }

  /** The other steps leave the log and what was received of it alone. */
  lemma {:induction false} OthersLeaveTheLog(s: State, step: Step)
    requires Enabled(s, step) && !step.Commit? && !step.Deliver? && !step.Check?
    ensures var next := Perform(s, step);
            && next.log == s.log && next.stream == s.stream && next.start == s.start
            && next.cursor == s.cursor && next.reached == s.reached && Durables(next.sent) == Durables(s.sent)
            && (s.phase.Closed? ==> next.phase.Closed?)
            && (next.phase.Delivering? ==> next.phase == s.phase || (step.Read? && next.phase.page == s.log[s.cursor..s.cursor + step.count]))
  {
    hide DeliverOne, CheckAndSleep, AcceptsDelta, Durables;
    match step
    case ReceiveDelta(run, _) => DurablesExtend(s.sent, Delta(run));
    case Notify =>
    case NotifyFails =>
    case Read(_) =>
    case _ =>
  }

  lemma {:induction false} InOrderStep(s: State, step: Step)
    requires InOrder(s) && Enabled(s, step)
    ensures InOrder(Perform(s, step))
  {
    if step.Commit? {
      InOrderCommit(s, step.events, step.highWater, step.force);
    } else if step.Deliver? {
      InOrderDeliver(s, step.written);
    } else if step.Check? {
      InOrderCheck(s, step.written);
    } else {
      OthersLeaveTheLog(s, step);
      var next := Perform(s, step);
      hide InOrder, Perform, Durables, Visible;
      InOrderElsewhere(s, next);
    }
  }

  predicate OfWorker(step: Step)
  {
    step.Commit? || step.Notify? || step.NotifyFails?
  }

  lemma {:induction false} AwakeWorker(s: State, step: Step)
    requires Awake(s) && Enabled(s, step) && OfWorker(step)
    ensures Awake(Perform(s, step))
  {
    hide DeliverOne, CheckAndSleep, AcceptsDelta;
  }

  lemma {:induction false} AwakeDeliver(s: State, written: bool)
    requires Awake(s) && s.phase.Delivering?
    ensures Awake(DeliverOne(s, written))
  {
  }

  lemma {:induction false} AwakeReader(s: State, step: Step)
    requires Awake(s) && Enabled(s, step) && !OfWorker(step) && s.cursor <= |s.log|
    ensures Awake(Perform(s, step))
  {
    hide DeliverOne, NotifyWatchers, AcceptsDelta, AcceptsDiagnostic;
    match step
    case Deliver(written) => AwakeDeliver(s, written);
    case _ =>
  }

  lemma {:induction false} AwakeStep(s: State, step: Step)
    requires InOrder(s) && Awake(s) && Enabled(s, step)
    ensures Awake(Perform(s, step))
  {
    hide Awake, Perform, Enabled, Durables, Visible;
    if OfWorker(step) { AwakeWorker(s, step); } else { AwakeReader(s, step); }
  }

  lemma {:induction false} GatedDeliver(s: State, written: bool)
    requires Gated(s) && s.phase.Delivering?
    ensures Gated(DeliverOne(s, written))
  {
    hide LastChange, AllJustified;
    if s.phase.page != [] {
      LastChangeExtends(s.sent, Durable(s.phase.page[0]));
      JustifiedExtends(s.sent, Durable(s.phase.page[0]));
    }
  }

  lemma {:induction false} GatedStep(s: State, step: Step)
    requires InOrder(s) && Awake(s) && Gated(s) && Enabled(s, step)
    ensures Gated(Perform(s, step))
  {
    hide Durables, Visible, DeliverOne, LastChange, AllJustified;
    match step
    case Deliver(written) => GatedDeliver(s, written);
    case Check(_) =>
      if s.pending.Some? && AcceptsDiagnostic(s, s.pending.value) {
        LastChangeExtends(s.sent, Diagnostic(s.pending.value.run));
        JustifiedExtends(s.sent, Diagnostic(s.pending.value.run));
      }
    case ReceiveDelta(run, _) =>
      if AcceptsDelta(s, run) {
        LastChangeExtends(s.sent, Delta(run));
        JustifiedExtends(s.sent, Delta(run));
      }
    case _ =>
  }

  lemma {:induction false} StepKeepsInv(s: State, step: Step)
    requires Inv(s)
    ensures Inv(Apply(s, step))
  {
    hide InOrder, Awake, Gated, Enabled, Perform;
    if Enabled(s, step) {
      InOrderStep(s, step);
      AwakeStep(s, step);
      GatedStep(s, step);
    }
  }

  lemma {:induction false} RunKeepsInv(s: State, steps: seq<Step>)
    requires Inv(s)
    ensures Inv(Run(s, steps))
    ensures Run(s, steps).stream == s.stream && Run(s, steps).start == s.start
    decreases |steps|
  {
    hide Inv, Enabled, Perform;
    if steps != [] {
      StepKeepsInv(s, steps[0]);
      StreamStays(s, steps[0]);
      RunKeepsInv(Apply(s, steps[0]), steps[1..]);
    }
  }

  lemma {:induction false} StreamStays(s: State, step: Step)
    ensures Apply(s, step).stream == s.stream && Apply(s, step).start == s.start
    ensures Apply(s, step).log == if Enabled(s, step) && step.Commit? then s.log + step.events else s.log
  {
    hide AcceptsDelta, AcceptsDiagnostic, Shown, PageSize, DeliverOne, CheckAndSleep, NotifyWatchers;
    match step
    case Deliver(written) => if Enabled(s, step) { DeliverStays(s, written); }
    case Check(written) => CheckStays(s, written);
    case Notify => if Enabled(s, step) { NotifyStays(s); }
    case _ =>
  }

  lemma {:induction false} DeliverStays(s: State, written: bool)
    requires s.phase.Delivering?
    ensures var next := DeliverOne(s, written); next.stream == s.stream && next.start == s.start && next.log == s.log
  {
  }

  lemma {:induction false} CheckStays(s: State, written: bool)
    ensures var next := CheckAndSleep(s, written); next.stream == s.stream && next.start == s.start && next.log == s.log
  {
  }

  lemma {:induction false} NotifyStays(s: State)
    requires s.worker.Notifying?
    ensures var next := NotifyWatchers(s); next.stream == s.stream && next.start == s.start && next.log == s.log
  {
  }

  // ----- what it means -----

  lemma {:induction false} CatalogShowsEverything(stream: Stream, log: seq<Event>)
    requires !stream.Session?
    ensures Visible(stream, log) == log
  {
    if log != [] {
      CatalogShowsEverything(stream, log[..|log| - 1]);
    }
  }

  lemma {:induction false} InvAtFirst(first: State)
    requires Opens(first)
    ensures Inv(first)
  {
    assert first.log[first.start..first.reached] == [];
  }

  /**
   * However commits, notifications and reads interleave, the durable events received are the log from
   * the starting cursor on: no gap, no duplicate, no reordering.  An open stream has sent everything up
   * to its cursor.
   */
  lemma {:induction false} ReceivedIsTheLog(first: State, steps: seq<Step>)
    requires Opens(first)
    ensures var s := Run(first, steps);
            && first.start <= s.reached <= |s.log|
            && Durables(s.sent) == Visible(first.stream, s.log[first.start..s.reached])
            && (!first.stream.Session? ==> Durables(s.sent) == s.log[first.start..s.reached])
            && (!s.phase.Closed? ==> s.reached == s.cursor)
  {
    InvAtFirst(first);
    RunKeepsInv(first, steps);
    var s := Run(first, steps);
    if !first.stream.Session? {
      CatalogShowsEverything(first.stream, s.log[first.start..s.reached]);
    }
  }

  /** The worker's notification that the watch channel really carries. */
  predicate Publishes(s: State, step: Step)
  {
    step.Notify? && s.worker.Notifying? && (s.worker.force || s.highWater > s.published)
  }

  /** The worker's notification of new events that is never made. */
  predicate Misses(s: State, step: Step)
  {
    step.NotifyFails? && s.worker.Notifying? && s.worker.appended
  }

  predicate Marks(s: State, step: Step)
  {
    step.Mark? && s.phase.Marking?
  }

  /** Whether anything was published since the reader last looked at the channel. */
  function Announced(s: State, steps: seq<Step>, before: bool): bool
    decreases |steps|
  {
    if steps == [] then before
    else
      Announced(Apply(s, steps[0]), steps[1..], !Marks(s, steps[0]) && (before || Publishes(s, steps[0])))
  }

  /** Whether a notification of new events was missed since the reader last looked at the channel. */
  function Missed(s: State, steps: seq<Step>, before: bool): bool
    decreases |steps|
  {
    if steps == [] then before
    else
      Missed(Apply(s, steps[0]), steps[1..], !Marks(s, steps[0]) && (before || Misses(s, steps[0])))
  }

  /** What a reader between its look at the channel and its sleep can tell of the worker since. */
  ghost predicate Told(s: State, announced: bool, missed: bool)
  {
    s.phase.Reading? || s.phase.Delivering? || s.phase.Checking? || s.phase.Blocked? ==>
      && (s.version != s.seen <==> announced)
      && (|s.log| > s.base && !announced && !missed ==> s.worker.Notifying? && s.worker.appended)
  }

  lemma {:induction false} DeliverKeepsMarks(s: State, written: bool)
    requires s.phase.Delivering?
    ensures var next := DeliverOne(s, written);
            && next.log == s.log && next.base == s.base && next.version == s.version && next.seen == s.seen
            && next.worker == s.worker && next.unannounced == s.unannounced
  {
  }

  lemma {:induction false} ToldStep(s: State, step: Step, announced: bool, missed: bool)
    requires Awake(s) && Told(s, announced, missed)
    ensures Told(Apply(s, step),
                 !Marks(s, step) && (announced || Publishes(s, step)), !Marks(s, step) && (missed || Misses(s, step)))
  {
    hide AcceptsDelta, AcceptsDiagnostic, Advance, Shown;
    match step
    case Commit(_, _, _) =>
    case Notify =>
    case NotifyFails =>
    case Publish(_) =>
    case Mark =>
    case Read(_) =>
    case Deliver(written) => if s.phase.Delivering? { DeliverKeepsMarks(s, written); }
    case Check(_) =>
    case Wake =>
    case WakeForActivity =>
    case ReceiveDiagnostic =>
    case ReceiveDelta(_, _) =>
    case Close =>
  }

  lemma {:induction false} ToldAfter(s: State, steps: seq<Step>, announced: bool, missed: bool)
    requires Inv(s) && Told(s, announced, missed)
    ensures Told(Run(s, steps), Announced(s, steps, announced), Missed(s, steps, missed))
    decreases |steps|
  {
    hide Told, Apply, InOrder, Awake, Gated, Marks, Publishes, Misses;
    if steps != [] {
      var step := steps[0];
      ToldStep(s, step, announced, missed);
      StepKeepsInv(s, step);
      ToldAfter(Apply(s, step), steps[1..], !Marks(s, step) && (announced || Publishes(s, step)),
                !Marks(s, step) && (missed || Misses(s, step)));
    }
  }

  /**
   * When a sleeping reader with something to read sleeps on.  If the worker still owes the notification
   * of new events, making it wakes the reader.  Otherwise the reader can wake if and only if something
   * was published since it last looked, and when nothing was, the worker missed a notification of new
   * events in that time.
   */
  lemma {:induction false} WakeUpIsLostExactlyWhen(first: State, steps: seq<Step>)
    requires Opens(first)
    requires var s := Run(first, steps); s.phase.Blocked? && s.cursor < |s.log|
    ensures var s := Run(first, steps);
            && (Enabled(s, Wake) <==> Announced(first, steps, false))
            && (s.worker.Notifying? && s.worker.appended ==> Enabled(Apply(s, Notify), Wake))
            && (s.worker.Idle? ==> (!Enabled(s, Wake) <==> Missed(first, steps, false) && !Announced(first, steps, false)))
  {
    InvAtFirst(first);
    RunKeepsInv(first, steps);
    ToldAfter(first, steps, false, false);
    hide InOrder, Gated, Announced, Missed, Run;
  }

  /** A sleeping reader with something to read is about to be woken, unless a commit is still unannounced. */
  lemma {:induction false} NoLostWakeUp(first: State, steps: seq<Step>)
    requires Opens(first)
    requires var s := Run(first, steps); s.phase.Blocked? && s.cursor < |s.log| && !s.unannounced
    ensures var s := Run(first, steps);
            Enabled(s, Wake) || (s.worker.Notifying? && s.worker.appended && Enabled(Apply(s, Notify), Wake))
  {
    InvAtFirst(first);
    RunKeepsInv(first, steps);
    hide InOrder, Gated, Run;
  }

  /** A commit is left unannounced only by a notification of new events whose high water could not be read. */
  lemma {:induction false} OnlyMissesGoUnannounced(s: State, steps: seq<Step>) returns (k: nat)
    requires !s.unannounced && Run(s, steps).unannounced
    ensures k < |steps| && Misses(Run(s, steps[..k]), steps[k])
    ensures forall i :: k < i < |steps| ==> !Publishes(Run(s, steps[..i]), steps[i])
    decreases |steps|
  {
    if steps == [] {
      assert false;
    } else {
      var last := |steps| - 1;
      RunSnoc(s, steps);
      UnannouncedStep(Run(s, steps[..last]), steps[last]);
      hide Apply, Misses, Publishes, Run;
      if Run(s, steps[..last]).unannounced {
        k := OnlyMissesGoUnannounced(s, steps[..last]);
        assert steps[..last][..k] == steps[..k];
        forall i | k < i < |steps| ensures !Publishes(Run(s, steps[..i]), steps[i]) {
          if i < last { assert steps[..last][..i] == steps[..i]; }
        }
      } else {
        k := last;
      }
    }
  }

  lemma {:induction false} UnannouncedStep(s: State, step: Step)
    ensures Apply(s, step).unannounced <==> !Publishes(s, step) && (s.unannounced || Misses(s, step))
  {
    hide AcceptsDelta, AcceptsDiagnostic, Advance, Shown;
    match step
    case Notify =>
    case NotifyFails =>
    case Deliver(written) => if s.phase.Delivering? { DeliverKeepsMarks(s, written); }
    case Check(_) =>
    case _ =>
  }

  lemma {:induction false} RunSnoc(s: State, steps: seq<Step>)
    requires steps != []
    ensures Run(s, steps) == Apply(Run(s, steps[..|steps| - 1]), steps[|steps| - 1])
    decreases |steps|
  {
    hide Apply;
    if |steps| > 1 {
      RunSnoc(Apply(s, steps[0]), steps[1..]);
      assert steps[1..][..|steps| - 2] == steps[..|steps| - 1][1..];
    }
  }

  /** It does happen: one unread high water leaves the reader asleep in front of an event. */
  lemma {:induction false} UnreadHighWaterLosesAWakeUp()
    ensures var s := Run(Subscribed(Catalog, [], 0, 0, 0), [Mark, Read(0), Check(true), Commit([Other(1)], 1, false), NotifyFails]);
            s.phase.Blocked? && s.cursor < |s.log| && s.worker.Idle? && !Enabled(s, Wake)
  {
    var s := Subscribed(Catalog, [], 0, 0, 0);
    RunFive(s, Mark, Read(0), Check(true), Commit([Other(1)], 1, false), NotifyFails);
    var asleep := s.(phase := Blocked);
    FallsAsleep(s);
    hide Run;
    var committed := Apply(asleep, Commit([Other(1)], 1, false));
    assert committed == asleep.(log := [Other(1)], highWater := 1, worker := Notifying(false, true));
    assert Apply(committed, NotifyFails) == committed.(worker := Idle, unannounced := true);
  }

  lemma {:induction false} FallsAsleep(s: State)
    requires s == Subscribed(Catalog, [], 0, 0, 0)
    ensures Apply(Apply(Apply(s, Mark), Read(0)), Check(true)) == s.(phase := Blocked)
  {
    assert Apply(s, Mark) == s.(phase := Reading);
    assert Apply(s.(phase := Reading), Read(0)) == s.(phase := Checking);
  }

  lemma {:induction false} RunFive(s: State, a: Step, b: Step, c: Step, d: Step, e: Step)
    ensures Run(s, [a, b, c, d, e]) == Apply(Apply(Apply(Apply(Apply(s, a), b), c), d), e)
  {
    hide Apply;
    var s1, s2, s3 := Apply(s, a), Apply(Apply(s, a), b), Apply(Apply(Apply(s, a), b), c);
    assert [a, b, c, d, e] == [a] + [b, c, d, e] && [b, c, d, e] == [b] + [c, d, e];
    assert [c, d, e] == [c] + [d, e] && [d, e] == [d] + [e] && [e] == [e] + [];
    RunCons(s, a, [b, c, d, e]);
    RunCons(s1, b, [c, d, e]);
    RunCons(s2, c, [d, e]);
    RunCons(s3, d, [e]);
    RunCons(Apply(s3, d), e, []);
  }

  lemma {:induction false} LastChangeWasSent(sent: seq<Sent>) returns (k: nat)
    requires LastChange(sent).Some?
    ensures k < |sent| && sent[k] == Durable(LastChange(sent).value)
    ensures forall j :: k < j < |sent| && sent[j].Durable? ==> !sent[j].event.RunChanged?
  {
    var last := |sent| - 1;
    if sent[last].Durable? && sent[last].event.RunChanged? {
      k := last;
    } else {
      k := LastChangeWasSent(sent[..last]);
    }
  }

  /** A diagnostic is sent only after the durable failure it explains, with no other run change in between. */
  lemma {:induction false} DiagnosticFollowsItsFailure(first: State, steps: seq<Step>, k: nat) returns (j: nat)
    requires Opens(first) && k < |Run(first, steps).sent| && Run(first, steps).sent[k].Diagnostic?
    ensures var sent := Run(first, steps).sent;
            && j < k && sent[j] == Durable(RunChanged(sent[k].run, NativeFailure))
            && (forall i :: j < i < k && sent[i].Durable? ==> !sent[i].event.RunChanged?)
  {
    InvAtFirst(first);
    RunKeepsInv(first, steps);
    var sent := Run(first, steps).sent;
    assert Justified(sent[..k], sent[k]);
    j := LastChangeWasSent(sent[..k]);
  }

  /** No delta follows the end of its run, and none of another run is mixed into a live one. */
  lemma {:induction false} DeltasBelongToTheLiveRun(first: State, steps: seq<Step>, k: nat)
    requires Opens(first) && k < |Run(first, steps).sent|
    requires Run(first, steps).sent[k].Delta? && LastChange(Run(first, steps).sent[..k]).Some?
    ensures var sent := Run(first, steps).sent;
            var change := LastChange(sent[..k]).value;
            change.RunChanged? && (change.change.Live? <==> change.run == sent[k].run)
  {
    InvAtFirst(first);
    RunKeepsInv(first, steps);
    var sent := Run(first, steps).sent;
    assert Justified(sent[..k], sent[k]);
  }

  /** When a diagnostic is considered, the failure committed before it has already been sent. */
  lemma {:induction false} DiagnosticsAreConsideredCaughtUp(first: State, steps: seq<Step>)
    requires Opens(first) && Run(first, steps).phase.Checking? && Run(first, steps).pending.Some?
    ensures Run(first, steps).pending.value.at < Run(first, steps).reached
  {
    InvAtFirst(first);
    RunKeepsInv(first, steps);
    hide Run;
  }

  // ----- a reader left alone -----

  /** The reader's own steps, its writes succeeding. */
  predicate OfReader(step: Step)
  {
    step.Mark? || step.Read? || step == Deliver(true) || step == Check(true)
  }

  /** Every step of the schedule is the reader's and is enabled when its turn comes. */
  predicate Schedule(s: State, steps: seq<Step>)
    decreases |steps|
  {
    steps == [] || (OfReader(steps[0]) && Enabled(s, steps[0]) && Schedule(Apply(s, steps[0]), steps[1..]))
  }

  /** A bound on the steps the reader can still make before it sleeps. */
  function Distance(s: State): int
  {
    var unread := |s.log| - s.cursor;
    var stale := s.published != s.observed;
    match s.phase
    case Marking => 4 * unread + 3
    case Reading => 4 * unread + (if stale then 6 else 2)
    case Delivering(page) => 4 * unread + (if page == [] then 4 else 1)
    case Checking => if stale then 4 * unread + 4 else 1
    case Blocked => 0
    case Closed => 0
  }

  /** The reader is not about to sleep in front of events. */
  predicate CaughtUpBeforeSleep(s: State)
  {
    (s.phase.Checking? && s.published == s.observed) || s.phase.Blocked? ==> s.cursor == |s.log|
  }

  lemma {:induction false} ReaderStepAdvances(s: State, step: Step)
    requires InOrder(s) && CaughtUpBeforeSleep(s) && OfReader(step) && Enabled(s, step)
    ensures var next := Apply(s, step);
            && next.log == s.log && 0 <= Distance(next) < Distance(s) && CaughtUpBeforeSleep(next)
            && !next.phase.Closed?
  {
    hide Durables, Visible, AcceptsDiagnostic, Shown;
    match step
    case Mark =>
    case Read(_) =>
    case Deliver(_) => if s.phase.page != [] { AdvanceMovesOn(s, s.phase.page[0]); PublishedStays(s, s.phase.page[0]); }
    case Check(_) =>
  }

  lemma {:induction false} PublishedStays(s: State, event: Event)
    ensures Advance(s, event).published == s.published && Advance(s, event).observed == s.observed
  {
  }

  /** Short of sleeping, the reader can always go on. */
  lemma {:induction false} ReaderCanGoOn(s: State) returns (step: Step)
    requires InOrder(s) && !s.phase.Blocked? && !s.phase.Closed?
    ensures OfReader(step) && Enabled(s, step)
  {
    hide Durables, Visible;
    match s.phase
    case Marking => step := Mark;
    case Reading => step := Read(if s.cursor == |s.log| then 0 else 1);
    case Delivering(_) => step := Deliver(true);
    case Checking => step := Check(true);
  }

  /**
   * Left alone, the reader catches up whatever pages it reads: every schedule of its own steps is no
   * longer than the distance to its sleep, can be continued until then, and ends with the whole log sent.
   */
  lemma {:induction false} ReaderCatchesUp(s: State, steps: seq<Step>)
    requires Inv(s) && CaughtUpBeforeSleep(s) && !s.phase.Closed? && Schedule(s, steps)
    ensures var next := Run(s, steps);
            && next.log == s.log && |steps| + Distance(next) <= Distance(s)
            && (next.phase.Blocked? || exists step :: OfReader(step) && Enabled(next, step))
            && (next.phase.Blocked? ==> next.reached == |s.log| && Durables(next.sent) == Visible(s.stream, s.log[s.start..]))
    decreases |steps|
  {
    hide Awake, Gated, Perform, Enabled, Distance, CaughtUpBeforeSleep, OfReader, Durables, Visible;
    if steps == [] {
      if s.phase.Blocked? {
        SleepsCaughtUp(s);
      } else {
        var step := ReaderCanGoOn(s);
        assert OfReader(step) && Enabled(s, step);
      }
    } else {
      StepKeepsInv(s, steps[0]);
      ReaderStepAdvances(s, steps[0]);
      StreamStays(s, steps[0]);
      ReaderCatchesUp(Apply(s, steps[0]), steps[1..]);
    }
  }

  lemma {:induction false} SleepsCaughtUp(s: State)
    requires InOrder(s) && CaughtUpBeforeSleep(s) && s.phase.Blocked?
    ensures s.reached == |s.log| && Durables(s.sent) == Visible(s.stream, s.log[s.start..])
  {
    assert s.log[s.start..s.reached] == s.log[s.start..];
  }

  lemma {:induction false} RunCons(s: State, step: Step, rest: seq<Step>)
    ensures Run(s, [step] + rest) == Run(Apply(s, step), rest)
  {
    assert ([step] + rest)[1..] == rest;
  }
}
