/**
 * The host lock and the endpoint registration (crates/morons-protocol/src/control.rs): server processes
 * that start, publish, stop and crash, and clients that probe the lock and read the registration, one
 * system call at a time.  A file is an inode with contents; a rename only moves a name.
 */
module Control {
  import opened Basics

  /** Contents of a registration file; `owner` stands for the server with its own host epoch. */
  datatype Content = Partial | Complete(owner: nat)

  datatype Key = NoKey | PartialKey | WholeKey

  datatype Holder = Free | Server(p: nat) | Probe(c: nat)

  datatype Phase =
    | Waiting
    | Locked
    | MakingKey
    | Keyed
    | StaleSeen         // found an older registration, read and validated it
    | Unregistered      // stale registration gone, temporary files still there
    | Ready             // acquired, `published` is false
    | Vacant            // publishing, saw no registration
    | Writing(inode: nat)
    | Written(inode: nat)
    | Renamed
    | Published
    | Leaving           // dropping, found its own registration in place
    | Removed
    | Dead

  datatype Outcome = Absent | Incomplete | Starting | Registered(owner: nat) | Failed

  datatype Client =
    | Probing                       // holds the lock for a moment
    | Probed(held: bool)
    | Looked(held: bool)            // found a registration, or nobody holding the lock
    | KeyThere(held: bool)
    | MissingKey(held: bool)
    | UnreadableKey
    | NoRegistration                // an unreadable key and no registration: about to probe again
    | Reprobing                     // holds the lock for a moment once more
    | HasKey(held: bool)
    | Reading(inode: nat)
    | Done(outcome: Outcome)

  /** `history` records every server whose registration was ever renamed into place. */
  datatype State = State(
    lock: Holder, key: Key, path: Option<nat>, inodes: map<nat, Content>, temps: map<nat, nat>,
    servers: map<nat, Phase>, clients: map<nat, Client>, history: set<nat>)

  const INITIAL := State(Free, NoKey, None, map[], map[], map[], map[], {})

  datatype Step =
    | Launch(p: nat)
    | TryLock(p: nat)
    | LoadKey(p: nat, firstStart: bool)
    | KeyMade(p: nat, ok: bool)
    | SeeStale(p: nat)
    | RemoveStale(p: nat)
    | CleanTemps(p: nat)
    | SeeVacant(p: nat)
    | OpenTemp(p: nat, inode: nat)
    | WriteTemp(p: nat)
    | Rename(p: nat)
    | FailWrite(p: nat)
    | SyncDirectory(p: nat, ok: bool)
    | BeginDrop(p: nat)
    | RemoveOwn(p: nat, ok: bool)
    | Release(p: nat)
    | Fail(p: nat)
    | Crash(p: nat)
    | ProbeLock(c: nat)
    | Unlock(c: nat)
    | LookForRegistration(c: nat)
    | LookForKey(c: nat)
    | ReadKey(c: nat)
    | ExplainMissingKey(c: nat)
    | ExplainUnreadableKey(c: nat)
    | ProbeAgain(c: nat)
    | OpenRegistration(c: nat)
    | ReadRegistration(c: nat)
    | KillClient(c: nat)

  predicate OfServer(step: Step)
  {
    !(step.ProbeLock? || step.Unlock? || step.LookForRegistration? || step.LookForKey? || step.ReadKey?
      || step.ExplainMissingKey? || step.ExplainUnreadableKey? || step.ProbeAgain? || step.OpenRegistration?
      || step.ReadRegistration? || step.KillClient?)
  }

  predicate At(s: State, p: nat, phase: Phase)
  {
    p in s.servers && s.servers[p] == phase
  }

  /** Between acquiring the host lock and closing it. */
  predicate Holds(phase: Phase)
  {
    !phase.Waiting? && !phase.Dead?
  }

  predicate Acquiring(phase: Phase)
  {
    phase.Locked? || phase.Keyed? || phase.StaleSeen? || phase.Unregistered?
  }

  /** A client between taking the lock to see whether it is free and giving it back. */
  predicate Probes(client: Client)
  {
    client.Probing? || client.Reprobing?
  }

  predicate Owned(s: State, owner: nat)
  {
    s.path.Some? && s.path.value in s.inodes && s.inodes[s.path.value] == Complete(owner)
  }

  predicate Enabled(s: State, step: Step)
  {
    match step
    case Launch(p) => p !in s.servers
    case TryLock(p) => At(s, p, Waiting)
    case LoadKey(p, _) => At(s, p, Locked)
    case KeyMade(p, _) => At(s, p, MakingKey)
    case SeeStale(p) => At(s, p, Keyed)
    case RemoveStale(p) => At(s, p, StaleSeen)
    case CleanTemps(p) => At(s, p, Unregistered)
    case SeeVacant(p) => At(s, p, Ready)
    case OpenTemp(p, inode) => At(s, p, Vacant) && inode !in s.inodes
    case WriteTemp(p) => p in s.servers && s.servers[p].Writing?
    case Rename(p) => p in s.servers && s.servers[p].Written?
    case FailWrite(p) => p in s.servers && (s.servers[p].Writing? || s.servers[p].Written?)
    case SyncDirectory(p, _) => At(s, p, Renamed)
    case BeginDrop(p) => At(s, p, Ready) || At(s, p, Published)
    case RemoveOwn(p, _) => At(s, p, Leaving)
    case Release(p) => At(s, p, Removed)
    case Fail(p) => p in s.servers && Acquiring(s.servers[p])
    case Crash(p) => p in s.servers && !s.servers[p].Dead?
    case ProbeLock(c) => c !in s.clients
    case Unlock(c) => c in s.clients && Probes(s.clients[c])
    case LookForRegistration(c) => c in s.clients && s.clients[c].Probed?
    case LookForKey(c) => c in s.clients && s.clients[c].Looked?
    case ReadKey(c) => c in s.clients && s.clients[c].KeyThere?
    case ExplainMissingKey(c) => c in s.clients && s.clients[c].MissingKey?
    case ExplainUnreadableKey(c) => c in s.clients && s.clients[c].UnreadableKey?
    case ProbeAgain(c) => c in s.clients && s.clients[c].NoRegistration?
    case OpenRegistration(c) => c in s.clients && s.clients[c].HasKey?
    case ReadRegistration(c) => c in s.clients && s.clients[c].Reading?
    case KillClient(c) => c in s.clients && !s.clients[c].Done?
  }

  function Enter(s: State, p: nat, phase: Phase): State
  {
    s.(servers := s.servers[p := phase])
  }

  /** Closing the lock file, by an error return, the end of drop, or the end of the process. */
  function Close(s: State, p: nat): State
  {
    Enter(s, p, Dead).(lock := if s.lock == Server(p) then Free else s.lock)
  }

  function PerformServer(s: State, step: Step): State
    requires Enabled(s, step)
  {
    match step
    case Launch(p) => Enter(s, p, Waiting)
    case TryLock(p) => if s.lock.Free? then Enter(s, p, Locked).(lock := Server(p)) else Enter(s, p, Dead)
    case LoadKey(p, firstStart) =>
      if s.key.WholeKey? then Enter(s, p, Keyed)
      else if s.key.NoKey? && firstStart then Enter(s, p, MakingKey).(key := PartialKey)
      else Close(s, p)
    case KeyMade(p, ok) => if ok then Enter(s, p, Keyed).(key := WholeKey) else Close(s, p).(key := NoKey)
    case SeeStale(p) =>
      if s.path.None? then Enter(s, p, Unregistered)
      else if s.path.value in s.inodes && s.inodes[s.path.value].Complete? then Enter(s, p, StaleSeen)
      else Close(s, p)
    case RemoveStale(p) => Enter(s, p, Unregistered).(path := None)
    case CleanTemps(p) => Enter(s, p, Ready).(temps := map[])
    case SeeVacant(p) => if s.path.None? then Enter(s, p, Vacant) else s
    case OpenTemp(p, inode) =>
      if p in s.temps then Enter(s, p, Ready)
      else Enter(s, p, Writing(inode)).(temps := s.temps[p := inode], inodes := s.inodes[inode := Partial])
    case WriteTemp(p) => Enter(s, p, Written(s.servers[p].inode)).(inodes := s.inodes[s.servers[p].inode := Complete(p)])
    case Rename(p) =>
      Enter(s, p, Renamed).(path := Some(s.servers[p].inode), temps := s.temps - {p}, history := s.history + {p})
    case FailWrite(p) => Enter(s, p, Ready).(temps := s.temps - {p})
    case SyncDirectory(p, ok) => Enter(s, p, if ok then Published else Ready)
    case BeginDrop(p) => Enter(s, p, if s.servers[p].Published? && Owned(s, p) then Leaving else Removed)
    case RemoveOwn(p, ok) => Enter(s, p, Removed).(path := if ok then None else s.path)
    case Release(p) => Close(s, p)
    case Fail(p) => Close(s, p)
    case Crash(p) => Close(s, p)
    case _ => s
  }

  function Report(s: State, c: nat, client: Client): State
  {
    s.(clients := s.clients[c := client])
  }

  function PerformClient(s: State, step: Step): State
    requires Enabled(s, step)
  {
    match step
    case ProbeLock(c) =>
      if s.lock.Free? then Report(s, c, Probing).(lock := Probe(c)) else Report(s, c, Probed(true))
    case Unlock(c) => Report(s, c, if s.clients[c].Probing? then Probed(false) else Done(Failed)).(lock := Free)
    case LookForRegistration(c) =>
      Report(s, c, if s.clients[c].held && s.path.None? then Done(Starting) else Looked(s.clients[c].held))
    case LookForKey(c) => Report(s, c, if s.key.NoKey? then MissingKey(s.clients[c].held) else KeyThere(s.clients[c].held))
    case ReadKey(c) => Report(s, c, if s.key.WholeKey? then HasKey(s.clients[c].held) else UnreadableKey)
    case ExplainMissingKey(c) =>
      Report(s, c, Done(if s.path.Some? then Failed else if s.clients[c].held then Starting else Incomplete))
    case ExplainUnreadableKey(c) =>
      Report(s, c, if s.path.Some? then Done(Failed) else NoRegistration)
    case ProbeAgain(c) =>
      if s.lock.Free? then Report(s, c, Reprobing).(lock := Probe(c)) else Report(s, c, Done(Starting))
    case OpenRegistration(c) =>
      if s.path.None? then Report(s, c, Done(if s.clients[c].held then Starting else Absent))
      else Report(s, c, Reading(s.path.value))
    case ReadRegistration(c) =>
      var inode := s.clients[c].inode;
      if inode in s.inodes && s.inodes[inode].Complete? then Report(s, c, Done(Registered(s.inodes[inode].owner)))
      else Report(s, c, Done(Failed))
    case KillClient(c) => Report(s, c, Done(Failed)).(lock := if s.lock == Probe(c) then Free else s.lock)
    case _ => s
  }

  function Perform(s: State, step: Step): State
    requires Enabled(s, step)
  {
    if OfServer(step) then PerformServer(s, step) else PerformClient(s, step)
  }

  function Apply(s: State, step: Step): State
  {
    if Enabled(s, step) then Perform(s, step) else s
  }

  function Run(s: State, steps: seq<Step>): State
    decreases |steps|
  {
    if steps == [] then s else Run(Apply(s, steps[0]), steps[1..])
  }

  // ----- the invariant -----

  ghost predicate OneHolder(s: State)
  {
    && (forall p :: p in s.servers ==> (Holds(s.servers[p]) <==> s.lock == Server(p)))
    && (forall c :: c in s.clients ==> (Probes(s.clients[c]) <==> s.lock == Probe(c)))
    && (s.lock.Server? ==> s.lock.p in s.servers)
    && (s.lock.Probe? ==> s.lock.c in s.clients)
  }

  /** Files reachable under the public name are complete and were published; private ones are not shared. */
  ghost predicate FilesWhole(s: State)
  {
    && (s.path.Some? ==> Exposed(s, s.path.value))
    && (forall c :: c in s.clients && s.clients[c].Reading? ==> Exposed(s, s.clients[c].inode))
    && (forall p :: p in s.temps ==> s.temps[p] in s.inodes)
    && (forall p, q :: p in s.temps && q in s.temps && s.temps[p] == s.temps[q] ==> p == q)
    && (forall p :: p in s.servers && s.servers[p].Writing? ==> p in s.temps && s.temps[p] == s.servers[p].inode)
    && (forall p :: p in s.servers && s.servers[p].Written? ==>
          p in s.temps && s.temps[p] == s.servers[p].inode && s.inodes[s.temps[p]] == Complete(p))
  }

  ghost predicate Exposed(s: State, inode: nat)
  {
    && inode in s.inodes && s.inodes[inode].Complete? && s.inodes[inode].owner in s.history
    && (forall p :: p in s.temps ==> s.temps[p] != inode)
  }

  predicate AfterRename(phase: Phase)
  {
    phase.Ready? || phase.Renamed? || phase.Published? || phase.Leaving? || phase.Removed? || phase.Dead?
  }

  /** What a server in this phase may rely on about the registration file and the key. */
  predicate Entitled(s: State, p: nat, phase: Phase)
  {
    match phase
    case Waiting => true
    case Locked => true
    case MakingKey => s.key.PartialKey?
    case Keyed => s.key.WholeKey?
    case StaleSeen => s.key.WholeKey? && s.path.Some?
    case Unregistered => s.key.WholeKey? && s.path.None? && p !in s.history
    case Ready => s.key.WholeKey? && (if p in s.history then Owned(s, p) else s.path.None?)
    case Vacant => s.key.WholeKey? && s.path.None? && p !in s.history
    case Writing(_) => s.key.WholeKey? && s.path.None? && p !in s.history
    case Written(_) => s.key.WholeKey? && s.path.None? && p !in s.history
    case Renamed => s.key.WholeKey? && p in s.history && Owned(s, p)
    case Published => s.key.WholeKey? && p in s.history && Owned(s, p)
    case Leaving => s.key.WholeKey? && p in s.history && Owned(s, p)
    case Removed => s.key.WholeKey?
    case Dead => true
  }

  ghost predicate AllEntitled(s: State)
  {
    forall p :: p in s.servers ==> Entitled(s, p, s.servers[p])
  }

  /** Who has published is in place, leaving, or gone, and there is a key. */
  ghost predicate HistoryKnown(s: State)
  {
    && (forall p :: p in s.history ==> p in s.servers && AfterRename(s.servers[p]))
    && (s.history != {} ==> s.key.WholeKey?)
  }

  ghost predicate Inv(s: State)
  {
    OneHolder(s) && FilesWhole(s) && AllEntitled(s) && HistoryKnown(s)
  }

  // ----- what a step can change -----

  lemma {:induction false} ReportChangesClients(s: State, c: nat)
    ensures forall client :: var next := Report(s, c, client);
                             && next.servers == s.servers && next.inodes == s.inodes && next.temps == s.temps
                             && next.path == s.path && next.history == s.history && next.key == s.key
  {
  }

  lemma {:induction false} ClientsOnlyLook(s: State, step: Step)
    requires Enabled(s, step) && !OfServer(step)
    ensures var next := PerformClient(s, step);
            && next.servers == s.servers && next.inodes == s.inodes && next.temps == s.temps
            && next.path == s.path && next.history == s.history && next.key == s.key
  {
    ReportChangesClients(s, step.c);
    hide Report, Probes, Acquiring;
  }

  lemma {:induction false} ClientMoves(s: State, step: Step)
    requires Enabled(s, step) && !OfServer(step)
    ensures var next := PerformClient(s, step);
            && next.servers == s.servers && next.inodes == s.inodes && next.temps == s.temps
            && next.path == s.path && next.history == s.history && next.key == s.key
            && step.c in next.clients && next.clients == s.clients[step.c := next.clients[step.c]]
  {
    ClientsOnlyLook(s, step);
    hide Probes;
  }

  lemma {:induction false} ClientOpens(s: State, step: Step)
    requires Enabled(s, step) && !OfServer(step)
    ensures step.c in PerformClient(s, step).clients
    ensures var client := PerformClient(s, step).clients[step.c];
            client.Reading? ==> s.path == Some(client.inode)
  {
    if step.ProbeLock? || step.Unlock? || step.LookForRegistration? {
      assert !PerformClient(s, step).clients[step.c].Reading?;
    }
  }

  lemma {:induction false} OpenFileIsReadOrDropped(s: State, step: Step)
    requires Enabled(s, step) && !OfServer(step) && step.c in s.clients && s.clients[step.c].Reading?
    ensures step.ReadRegistration? || step.KillClient?
  {
  }

  lemma {:induction false} PhaseMoves(s: State, p: nat)
    ensures forall phase :: Enter(s, p, phase).servers == s.servers[p := phase] && Enter(s, p, phase).clients == s.clients
    ensures Close(s, p).servers == s.servers[p := Dead] && Close(s, p).clients == s.clients
    ensures p in s.servers ==> s.servers == s.servers[p := s.servers[p]]
  {
  }

  lemma {:induction false} ServerMoves(s: State, step: Step)
    requires Enabled(s, step) && OfServer(step)
    ensures var next := PerformServer(s, step);
            && next.clients == s.clients && step.p in next.servers && next.servers == s.servers[step.p := next.servers[step.p]]
  {
    PhaseMoves(s, step.p);
    hide Acquiring, Holds, Owned, Enter, Close;
  }

  lemma {:induction false} ServerRecords(s: State, step: Step)
    requires Enabled(s, step) && OfServer(step)
    ensures PerformServer(s, step).history == if step.Rename? then s.history + {step.p} else s.history
  {
    hide Acquiring, Holds, Owned;
  }

  lemma {:induction false} ServerWrites(s: State, step: Step)
    requires Enabled(s, step) && OfServer(step)
    ensures var next := PerformServer(s, step);
            && next.history == (if step.Rename? then s.history + {step.p} else s.history)
            && next.inodes == (if step.OpenTemp? && step.p !in s.temps then s.inodes[step.inode := Partial]
                               else if step.WriteTemp? then s.inodes[s.servers[step.p].inode := Complete(step.p)]
                               else s.inodes)
  {
    ServerRecords(s, step);
    hide Acquiring, Holds, Owned;
  }

  // ----- the lock -----

  lemma {:induction false} CloseKeepsOneHolder(s: State, p: nat)
    requires OneHolder(s) && p in s.servers
    ensures OneHolder(Close(s, p))
  {
  }

  lemma {:induction false} EnterKeepsOneHolder(s: State, next: State, p: nat, phase: Phase)
    requires OneHolder(s) && next.servers == s.servers[p := phase] && next.clients == s.clients && next.lock == s.lock
    requires if p in s.servers then Holds(phase) == Holds(s.servers[p]) else phase.Waiting? && s.lock != Server(p)
    ensures OneHolder(next)
  {
  }

  lemma {:induction false} StrangerIsNotTheHolder(s: State, p: nat)
    requires OneHolder(s) && p !in s.servers
    ensures s.lock != Server(p)
  {
  }

  lemma {:induction false} LockKeepsOneHolder(s: State, p: nat)
    requires OneHolder(s) && At(s, p, Waiting) && s.lock.Free?
    ensures OneHolder(Enter(s, p, Locked).(lock := Server(p)))
  {
  }

  /** The three ways a server's step can treat the lock. */
  lemma {:induction false} LockMoves(s: State, step: Step)
    requires Enabled(s, step) && OfServer(step)
    ensures var next, p := PerformServer(s, step), step.p;
            || (step.TryLock? && s.lock.Free? && next == Enter(s, p, Locked).(lock := Server(p)))
            || (p in s.servers && next.lock == Close(s, p).lock && next.servers == Close(s, p).servers)
            || (next.lock == s.lock
                && (if p in s.servers then Holds(next.servers[p]) == Holds(s.servers[p]) else next.servers[p].Waiting?))
  {
  }

  lemma {:induction false} OneHolderServer(s: State, step: Step)
    requires OneHolder(s) && Enabled(s, step) && OfServer(step)
    ensures OneHolder(PerformServer(s, step))
  {
    var next, p := PerformServer(s, step), step.p;
    ServerMoves(s, step);
    LockMoves(s, step);
    hide OneHolder, PerformServer, Holds;
    if step.TryLock? && s.lock.Free? && next == Enter(s, p, Locked).(lock := Server(p)) {
      LockKeepsOneHolder(s, p);
    } else if p in s.servers && next.lock == Close(s, p).lock && next.servers == Close(s, p).servers {
      CloseKeepsOneHolder(s, p);
      SameLock(Close(s, p), next);
    } else {
      if p !in s.servers { StrangerIsNotTheHolder(s, p); }
      EnterKeepsOneHolder(s, next, p, next.servers[p]);
    }
  }

  lemma {:induction false} SameLock(s: State, next: State)
    requires OneHolder(s) && next.lock == s.lock && next.servers == s.servers && next.clients == s.clients
    ensures OneHolder(next)
  {
  }

  /** The steps of a client that take or drop the lock. */
  predicate TouchesLock(step: Step)
  {
    step.ProbeLock? || step.Unlock? || step.ProbeAgain? || step.KillClient?
  }

  lemma {:induction false} ClientAtTheLock(s: State, step: Step)
    requires OneHolder(s) && Enabled(s, step) && TouchesLock(step)
    ensures OneHolder(PerformClient(s, step))
  {
  }

  lemma {:induction false} ClientAwayFromTheLock(s: State, step: Step)
    requires Enabled(s, step) && !OfServer(step) && !TouchesLock(step)
    ensures var next := PerformClient(s, step);
            && next.servers == s.servers && next.lock == s.lock && step.c in s.clients && !Probes(s.clients[step.c])
            && step.c in next.clients && !Probes(next.clients[step.c])
            && next.clients == s.clients[step.c := next.clients[step.c]]
  {
  }

  lemma {:induction false} OneHolderClient(s: State, step: Step)
    requires OneHolder(s) && Enabled(s, step) && !OfServer(step)
    ensures OneHolder(PerformClient(s, step))
  {
    if TouchesLock(step) {
      ClientAtTheLock(s, step);
      hide OneHolder, PerformClient;
    } else {
      ClientAwayFromTheLock(s, step);
      hide PerformClient, Enabled, Holds, Probes, OfServer;
    }
  }

  /** While `p` holds the lock no other server is past acquiring it. */
  lemma {:induction false} AloneWithTheLock(s: State, p: nat, q: nat)
    requires OneHolder(s) && p in s.servers && q in s.servers && Holds(s.servers[p]) && Holds(s.servers[q])
    ensures p == q
  {
  }

  // ----- the files -----

  lemma {:induction false} SameFiles(s: State, next: State)
    requires FilesWhole(s)
    requires next.inodes == s.inodes && next.temps == s.temps && next.history == s.history
    requires next.path.Some? ==> Exposed(s, next.path.value)
    requires forall c :: c in next.clients && next.clients[c].Reading? ==> Exposed(s, next.clients[c].inode)
    requires forall p :: p in next.servers && (next.servers[p].Writing? || next.servers[p].Written?) ==>
               p in s.servers && s.servers[p] == next.servers[p]
    ensures FilesWhole(next)
  {
    forall inode | Exposed(s, inode) ensures Exposed(next, inode) {}
  }

  lemma {:induction false} SameFilesServer(s: State, next: State, p: nat)
    requires FilesWhole(s)
    requires next.inodes == s.inodes && next.temps == s.temps && next.history == s.history && next.clients == s.clients
    requires next.path == s.path || next.path.None?
    requires p in next.servers && next.servers == s.servers[p := next.servers[p]]
    requires !next.servers[p].Writing? && !next.servers[p].Written?
    ensures FilesWhole(next)
  {
    hide Exposed;
    SameFiles(s, next);
  }

  lemma {:induction false} CleanTempsKeepsFiles(s: State, p: nat)
    requires OneHolder(s) && FilesWhole(s) && At(s, p, Unregistered)
    ensures FilesWhole(Enter(s, p, Ready).(temps := map[]))
  {
    var next := Enter(s, p, Ready).(temps := map[]);
    forall inode | Exposed(s, inode) ensures Exposed(next, inode) {}
    forall q | q in next.servers && Holds(next.servers[q]) ensures q == p {
      if q != p { AloneWithTheLock(s, p, q); }
    }
  }

  lemma {:induction false} NewTempIsPrivate(s: State, next: State, p: nat, inode: nat, i: nat)
    requires Exposed(s, i) && inode !in s.inodes && next.history == s.history
    requires next.temps == s.temps[p := inode] && next.inodes == s.inodes[inode := Partial]
    ensures Exposed(next, i)
  {
  }

  lemma {:induction false} OpenTempKeepsFiles(s: State, p: nat, inode: nat)
    requires FilesWhole(s) && p in s.servers && p !in s.temps && inode !in s.inodes
    ensures FilesWhole(Enter(s, p, Writing(inode)).(temps := s.temps[p := inode], inodes := s.inodes[inode := Partial]))
  {
    hide Exposed;
    var next := Enter(s, p, Writing(inode)).(temps := s.temps[p := inode], inodes := s.inodes[inode := Partial]);
    forall i | Exposed(s, i) ensures Exposed(next, i) { NewTempIsPrivate(s, next, p, inode, i); }
  }

  lemma {:induction false} WriteTempKeepsFiles(s: State, p: nat, inode: nat)
    requires FilesWhole(s) && At(s, p, Writing(inode))
    ensures FilesWhole(Enter(s, p, Written(inode)).(inodes := s.inodes[inode := Complete(p)]))
  {
    var next := Enter(s, p, Written(inode)).(inodes := s.inodes[inode := Complete(p)]);
    forall i | Exposed(s, i) ensures Exposed(next, i) { assert i != s.temps[p]; }
  }

  lemma {:induction false} RenameKeepsFiles(s: State, p: nat, inode: nat)
    requires FilesWhole(s) && At(s, p, Written(inode))
    ensures FilesWhole(Enter(s, p, Renamed).(path := Some(inode), temps := s.temps - {p}, history := s.history + {p}))
  {
    var next := Enter(s, p, Renamed).(path := Some(inode), temps := s.temps - {p}, history := s.history + {p});
    forall i | Exposed(s, i) ensures Exposed(next, i) {}
    assert Exposed(next, inode);
  }

  lemma {:induction false} FailWriteKeepsFiles(s: State, p: nat)
    requires FilesWhole(s) && p in s.servers
    ensures FilesWhole(Enter(s, p, Ready).(temps := s.temps - {p}))
  {
    var next := Enter(s, p, Ready).(temps := s.temps - {p});
    forall i | Exposed(s, i) ensures Exposed(next, i) {}
  }

  predicate WritesFiles(step: Step)
  {
    step.CleanTemps? || step.OpenTemp? || step.WriteTemp? || step.Rename? || step.FailWrite?
  }

  lemma {:induction false} QuietOnFiles(s: State, step: Step)
    requires Enabled(s, step) && OfServer(step) && !WritesFiles(step)
    ensures var next := PerformServer(s, step);
            && next.temps == s.temps && (next.path == s.path || next.path.None?)
            && step.p in next.servers && !next.servers[step.p].Writing? && !next.servers[step.p].Written?
  {
    hide Acquiring, Holds, Owned;
    match step
    case Launch(_) =>
    case TryLock(_) =>
    case LoadKey(_, _) =>
    case KeyMade(_, _) =>
    case SeeStale(_) =>
    case RemoveStale(_) =>
    case SeeVacant(_) =>
    case SyncDirectory(_, _) =>
    case BeginDrop(_) =>
    case RemoveOwn(_, _) =>
    case Release(_) =>
    case Fail(_) =>
    case Crash(_) =>
    case _ =>
  }

  lemma {:induction false} FilesWritten(s: State, step: Step)
    requires OneHolder(s) && FilesWhole(s) && Enabled(s, step) && WritesFiles(step)
    ensures FilesWhole(PerformServer(s, step))
  {
    hide OneHolder, FilesWhole, Owned;
    match step
    case CleanTemps(p) => CleanTempsKeepsFiles(s, p);
    case OpenTemp(p, inode) =>
      if p in s.temps { SameFilesServer(s, Enter(s, p, Ready), p); } else { OpenTempKeepsFiles(s, p, inode); }
    case WriteTemp(p) => WriteTempKeepsFiles(s, p, s.servers[p].inode);
    case Rename(p) => RenameKeepsFiles(s, p, s.servers[p].inode);
    case FailWrite(p) => FailWriteKeepsFiles(s, p);
  }

  lemma {:induction false} FilesServer(s: State, step: Step)
    requires OneHolder(s) && FilesWhole(s) && Enabled(s, step) && OfServer(step)
    ensures FilesWhole(PerformServer(s, step))
  {
    hide OneHolder, FilesWhole, PerformServer, Enabled;
    if WritesFiles(step) {
      FilesWritten(s, step);
    } else {
      QuietOnFiles(s, step);
      ServerMoves(s, step);
      ServerWrites(s, step);
      SameFilesServer(s, PerformServer(s, step), step.p);
    }
  }

  lemma {:induction false} FilesClient(s: State, step: Step)
    requires FilesWhole(s) && Enabled(s, step) && !OfServer(step)
    ensures FilesWhole(PerformClient(s, step))
  {
    ClientMoves(s, step);
    ClientOpens(s, step);
    hide Exposed, PerformClient, Enabled, OfServer;
    SameFiles(s, PerformClient(s, step));
  }

  // ----- the holder's rights -----

  /** Only the holder of the lock touches what the others rely on. */
  lemma {:induction false} OthersUnaffected(s: State, next: State, p: nat)
    requires OneHolder(s) && AllEntitled(s) && p in s.servers && Holds(s.servers[p])
    requires p in next.servers && next.servers == s.servers[p := next.servers[p]]
    requires Entitled(next, p, next.servers[p])
    ensures AllEntitled(next)
  {
    forall q | q in next.servers && q != p ensures Entitled(next, q, next.servers[q]) {
      if Holds(s.servers[q]) { AloneWithTheLock(s, p, q); }
    }
  }

  lemma {:induction false} SameRights(s: State, next: State)
    requires AllEntitled(s)
    requires next.key == s.key && next.path == s.path && next.inodes == s.inodes && next.history == s.history
    requires forall p :: p in next.servers ==>
               (p in s.servers && s.servers[p] == next.servers[p]) || next.servers[p].Waiting? || next.servers[p].Dead?
    ensures AllEntitled(next)
  {
  }

  predicate Acquires(step: Step)
  {
    || step.LoadKey? || step.KeyMade? || step.SeeStale? || step.RemoveStale? || step.CleanTemps?
    || step.Release? || step.Fail? || step.Crash?
  }

  predicate Publishes(step: Step)
  {
    || step.SeeVacant? || step.OpenTemp? || step.WriteTemp? || step.Rename? || step.FailWrite?
    || step.SyncDirectory? || step.BeginDrop? || step.RemoveOwn?
  }

  lemma {:induction false} RightsToAcquire(s: State, step: Step)
    requires Enabled(s, step) && Acquires(step) && Entitled(s, step.p, s.servers[step.p])
    requires step.p in s.history ==> AfterRename(s.servers[step.p])
    ensures var next := PerformServer(s, step);
            step.p in next.servers && Entitled(next, step.p, next.servers[step.p])
  {
    match step
    case LoadKey(_, _) =>
    case KeyMade(_, _) =>
    case SeeStale(_) =>
    case RemoveStale(_) =>
    case CleanTemps(_) =>
    case Release(_) =>
    case Fail(_) =>
    case Crash(_) =>
  }

  lemma {:induction false} RightsToPublish(s: State, step: Step)
    requires Enabled(s, step) && Publishes(step) && Entitled(s, step.p, s.servers[step.p])
    requires step.Rename? ==> var inode := s.servers[step.p].inode; inode in s.inodes && s.inodes[inode] == Complete(step.p)
    ensures var next := PerformServer(s, step);
            step.p in next.servers && Entitled(next, step.p, next.servers[step.p])
  {
    match step
    case SeeVacant(_) =>
    case OpenTemp(_, _) =>
    case WriteTemp(_) =>
    case Rename(_) =>
    case FailWrite(_) =>
    case SyncDirectory(_, _) =>
    case BeginDrop(_) =>
    case RemoveOwn(_, _) =>
  }

  lemma {:induction false} EntitledArrival(s: State, step: Step)
    requires AllEntitled(s) && Enabled(s, step) && (step.Launch? || step.TryLock?)
    ensures AllEntitled(PerformServer(s, step))
  {
    hide Entitled;
    if step.TryLock? && s.lock.Free? {
      LockedIsEntitled(s, PerformServer(s, step), step.p);
    } else {
      SameRights(s, PerformServer(s, step));
    }
  }

  lemma {:induction false} EntitledWaiter(s: State, p: nat)
    requires AllEntitled(s) && At(s, p, Waiting)
    ensures AllEntitled(PerformServer(s, Crash(p)))
  {
    hide Entitled;
    SameRights(s, PerformServer(s, Crash(p)));
  }

  lemma {:induction false} WrittenIsWhole(s: State, p: nat)
    requires FilesWhole(s) && Enabled(s, Rename(p))
    ensures var inode := s.servers[p].inode; inode in s.inodes && s.inodes[inode] == Complete(p)
  {
  }

  lemma {:induction false} EntitledHolder(s: State, step: Step)
    requires OneHolder(s) && AllEntitled(s) && Enabled(s, step) && OfServer(step) && (Acquires(step) || Publishes(step))
    requires step.p in s.servers && Holds(s.servers[step.p]) && Entitled(s, step.p, s.servers[step.p])
    requires step.p in s.history ==> AfterRename(s.servers[step.p])
    requires step.Rename? ==>
               s.servers[step.p].Written? && var inode := s.servers[step.p].inode; inode in s.inodes && s.inodes[inode] == Complete(step.p)
    ensures AllEntitled(PerformServer(s, step))
  {
    var p := step.p;
    hide OneHolder, Entitled, PerformServer, AllEntitled, Holds, Enabled, Acquires, Publishes, AfterRename, OfServer;
    if Acquires(step) { RightsToAcquire(s, step); } else { RightsToPublish(s, step); }
    ServerMoves(s, step);
    OthersUnaffected(s, PerformServer(s, step), p);
  }

  lemma {:induction false} OwnRight(s: State, p: nat)
    requires AllEntitled(s) && p in s.servers
    ensures Entitled(s, p, s.servers[p])
  {
    hide Entitled;
  }

  lemma {:induction false} OthersAcquireOrPublish(s: State, step: Step)
    requires Enabled(s, step) && OfServer(step) && !step.Launch? && !step.TryLock?
    ensures step.p in s.servers && (Acquires(step) || Publishes(step)) && (step.Rename? ==> s.servers[step.p].Written?)
  {
  }

  lemma {:induction false} EntitledServer(s: State, step: Step)
    requires Inv(s) && Enabled(s, step) && OfServer(step)
    ensures AllEntitled(PerformServer(s, step))
  {
    if step.Launch? || step.TryLock? {
      EntitledArrival(s, step);
    } else {
      HoldsUntilDead(s, step);
      OthersAcquireOrPublish(s, step);
      if step.Rename? { WrittenIsWhole(s, step.p); }
      OwnRight(s, step.p);
      hide PerformServer, OneHolder, FilesWhole, AllEntitled, Entitled, Acquires, Publishes, Enabled, Holds, OfServer;
      if step.Crash? && s.servers[step.p].Waiting? {
        EntitledWaiter(s, step.p);
      } else {
        EntitledHolder(s, step);
      }
    }
  }

  lemma {:induction false} LockedIsEntitled(s: State, next: State, p: nat)
    requires AllEntitled(s) && next == Enter(s, p, Locked).(lock := Server(p))
    ensures AllEntitled(next)
  {
  }

  lemma {:induction false} HoldsUntilDead(s: State, step: Step)
    requires Enabled(s, step) && OfServer(step) && !step.Launch? && !step.TryLock?
    ensures Holds(s.servers[step.p]) || (step.Crash? && s.servers[step.p].Waiting?)
  {
  }

  lemma {:induction false} HistoryServer(s: State, step: Step)
    requires FilesWhole(s) && AllEntitled(s) && HistoryKnown(s) && Enabled(s, step) && OfServer(step)
    ensures HistoryKnown(PerformServer(s, step))
  {
    hide OneHolder, FilesWhole, Exposed;
    if !step.Launch? { assert Entitled(s, step.p, s.servers[step.p]); }
  }

  lemma {:induction false} StepKeepsInv(s: State, step: Step)
    requires Inv(s)
    ensures Inv(Apply(s, step))
  {
    hide OneHolder, FilesWhole, Enabled, PerformServer, Entitled;
    if Enabled(s, step) {
      if OfServer(step) {
        OneHolderServer(s, step);
        FilesServer(s, step);
        EntitledServer(s, step);
        HistoryServer(s, step);
      } else {
        OneHolderClient(s, step);
        FilesClient(s, step);
        ClientsChangeNothing(s, step);
      }
    }
  }

  lemma {:induction false} ClientsChangeNothing(s: State, step: Step)
    requires AllEntitled(s) && HistoryKnown(s) && Enabled(s, step) && !OfServer(step)
    ensures AllEntitled(PerformClient(s, step)) && HistoryKnown(PerformClient(s, step))
  {
    ClientMoves(s, step);
    hide PerformClient, Enabled, OfServer, Entitled;
    SameRights(s, PerformClient(s, step));
  }

  lemma {:induction false} RunKeepsInv(s: State, steps: seq<Step>)
    requires Inv(s)
    ensures Inv(Run(s, steps))
    decreases |steps|
  {
    hide Inv, Apply;
    if steps != [] {
      StepKeepsInv(s, steps[0]);
      RunKeepsInv(Apply(s, steps[0]), steps[1..]);
    }
  }

  lemma {:induction false} ReachableKeepsInv(steps: seq<Step>)
    ensures Inv(Run(INITIAL, steps))
  {
    RunKeepsInv(INITIAL, steps);
  }

  // ----- what it means -----

  /** Servers, crashes and client probes in any order: at most one server is past the host lock. */
  lemma {:induction false} AtMostOneServer(steps: seq<Step>, p: nat, q: nat)
    requires var s := Run(INITIAL, steps);
             p in s.servers && q in s.servers && Holds(s.servers[p]) && Holds(s.servers[q])
    ensures p == q && Run(INITIAL, steps).lock == Server(p)
  {
    RunKeepsInv(INITIAL, steps);
  }

  /** From stale cleanup until it has dropped, the registration is absent or the holder's own. */
  lemma {:induction false} RegistrationIsTheHoldersOwn(steps: seq<Step>, p: nat)
    requires var s := Run(INITIAL, steps);
             p in s.servers && Holds(s.servers[p]) && !Acquiring(s.servers[p]) && !s.servers[p].MakingKey? && !s.servers[p].Removed?
    ensures var s := Run(INITIAL, steps); s.path.None? || Owned(s, p)
    ensures var s := Run(INITIAL, steps); s.servers[p].Published? ==> Owned(s, p)
  {
    RunKeepsInv(INITIAL, steps);
    hide OneHolder, FilesWhole, HistoryKnown;
  }

  /** What a drop removes is its own registration. */
  lemma {:induction false} DropRemovesItsOwn(steps: seq<Step>, p: nat)
    requires Enabled(Run(INITIAL, steps), RemoveOwn(p, true))
    ensures Owned(Run(INITIAL, steps), p)
  {
    RunKeepsInv(INITIAL, steps);
    hide OneHolder, FilesWhole, HistoryKnown;
  }

  /** What stale cleanup removes was published by a server that has since gone. */
  lemma {:induction false} CleanupRemovesTheDead(steps: seq<Step>, p: nat) returns (owner: nat)
    requires Enabled(Run(INITIAL, steps), RemoveStale(p))
    ensures var s := Run(INITIAL, steps); Owned(s, owner) && At(s, owner, Dead)
  {
    RunKeepsInv(INITIAL, steps);
    var s := Run(INITIAL, steps);
    assert Entitled(s, p, StaleSeen);
    assert Exposed(s, s.path.value);
    owner := s.inodes[s.path.value].owner;
    if !s.servers[owner].Dead? {
      AloneWithTheLock(s, p, owner);
    }
  }

  lemma {:induction false} ExposedStays(s: State, step: Step, inode: nat)
    requires FilesWhole(s) && Exposed(s, inode)
    ensures var next := Apply(s, step); inode in next.inodes && next.inodes[inode] == s.inodes[inode]
  {
    if Enabled(s, step) {
      if OfServer(step) { ServerWrites(s, step); } else { ClientMoves(s, step); }
      hide PerformServer, PerformClient;
    }
  }

  lemma {:induction false} ReaderStays(s: State, step: Step, c: nat)
    requires c in s.clients && s.clients[c].Reading? && step != ReadRegistration(c) && step != KillClient(c)
    ensures c in Apply(s, step).clients && Apply(s, step).clients[c] == s.clients[c]
  {
    if Enabled(s, step) {
      if OfServer(step) { ServerMoves(s, step); } else { ClientMoves(s, step); if step.c == c { OpenFileIsReadOrDropped(s, step); } }
      hide PerformServer, PerformClient, Enabled;
    }
  }

  lemma {:induction false} OpenFileStays(s: State, steps: seq<Step>, c: nat)
    requires Inv(s) && c in s.clients && s.clients[c].Reading?
    requires ReadRegistration(c) !in steps && KillClient(c) !in steps
    ensures var next := Run(s, steps);
            && c in next.clients && next.clients[c] == s.clients[c]
            && s.clients[c].inode in s.inodes && s.clients[c].inode in next.inodes
            && next.inodes[s.clients[c].inode] == s.inodes[s.clients[c].inode]
    decreases |steps|
  {
    hide Apply, OneHolder, HistoryKnown, AllEntitled;
    if steps != [] {
      StepKeepsInv(s, steps[0]);
      ExposedStays(s, steps[0], s.clients[c].inode);
      ReaderStays(s, steps[0], c);
      OpenFileStays(Apply(s, steps[0]), steps[1..], c);
    }
  }

  lemma {:induction false} OpenStep(s: State, c: nat)
    requires Enabled(s, OpenRegistration(c)) && s.path.Some?
    ensures var next := Apply(s, OpenRegistration(c));
            c in next.clients && next.clients[c] == Reading(s.path.value) && next.inodes == s.inodes
  {
  }

  lemma {:induction false} ReadStep(s: State, c: nat, inode: nat, owner: nat)
    requires c in s.clients && s.clients[c] == Reading(inode) && inode in s.inodes && s.inodes[inode] == Complete(owner)
    ensures Enabled(s, ReadRegistration(c))
    ensures var next := Apply(s, ReadRegistration(c)); c in next.clients && next.clients[c] == Done(Registered(owner))
  {
  }

  lemma {:induction false} PathIsPublished(s: State)
    requires FilesWhole(s) && s.path.Some?
    ensures exists owner :: Owned(s, owner) && owner in s.history
  {
    assert Exposed(s, s.path.value);
    assert Owned(s, s.inodes[s.path.value].owner);
  }

  /**
   * A client parses exactly one registration: the complete one that was in place when it opened the
   * file, however long it then takes and whoever restarts, publishes or crashes meanwhile.
   */
  lemma {:induction false} ClientParsesWhatItOpened(before: seq<Step>, c: nat, between: seq<Step>) returns (owner: nat)
    requires Enabled(Run(INITIAL, before), OpenRegistration(c)) && Run(INITIAL, before).path.Some?
    requires ReadRegistration(c) !in between && KillClient(c) !in between
    ensures Owned(Run(INITIAL, before), owner) && owner in Run(INITIAL, before).history
    ensures var later := Run(Apply(Run(INITIAL, before), OpenRegistration(c)), between);
            && Enabled(later, ReadRegistration(c))
            && c in Apply(later, ReadRegistration(c)).clients
            && Apply(later, ReadRegistration(c)).clients[c] == Done(Registered(owner))
  {
    ReachableKeepsInv(before);
    var s := Run(INITIAL, before);
    PathIsPublished(s);
    hide Apply, OneHolder, AllEntitled, HistoryKnown, FilesWhole, Enabled, Run;
    owner :| Owned(s, owner) && owner in s.history;
    OpenStep(s, c);
    var reading := Apply(s, OpenRegistration(c));
    StepKeepsInv(s, OpenRegistration(c));
    OpenFileStays(reading, between, c);
    ReadStep(Run(reading, between), c, s.path.value, owner);
  }

  /** How a client comes to have a registration open, or to return one. */
  lemma {:induction false} ClientGets(s: State, step: Step, c: nat)
    requires c in Apply(s, step).clients
    ensures var client := Apply(s, step).clients[c];
            && (client.Reading? ==>
                  (c in s.clients && s.clients[c] == client)
                  || (step == OpenRegistration(c) && Enabled(s, step) && s.path == Some(client.inode)))
            && (client.Done? && client.outcome.Registered? ==>
                  (c in s.clients && s.clients[c] == client)
                  || (step == ReadRegistration(c) && Enabled(s, step) && s.clients[c].inode in s.inodes
                      && s.inodes[s.clients[c].inode] == Complete(client.outcome.owner)))
  {
    if Enabled(s, step) {
      if OfServer(step) {
        ServerMoves(s, step);
        hide PerformServer;
      } else {
        ClientMoves(s, step);
      }
    }
  }

  /** The file a client is reading was the one in place when it opened it, and is still as it was. */
  lemma {:induction false} ReadingWasOpened(steps: seq<Step>, c: nat) returns (k: nat)
    requires var s := Run(INITIAL, steps); c in s.clients && s.clients[c].Reading?
    ensures k < |steps| && steps[k] == OpenRegistration(c) && Enabled(Run(INITIAL, steps[..k]), steps[k])
    ensures var s, earlier := Run(INITIAL, steps), Run(INITIAL, steps[..k]);
            var inode := s.clients[c].inode;
            && earlier.path == Some(inode) && inode in earlier.inodes && inode in s.inodes && s.inodes[inode] == earlier.inodes[inode]
    decreases |steps|
  {
    hide Apply, Enabled, Inv;
    if steps == [] {
      assert false;
    } else {
      var last := |steps| - 1;
      var before := Run(INITIAL, steps[..last]);
      RunSnoc(INITIAL, steps);
      ReachableIsExposed(steps[..last]);
      ClientGets(before, steps[last], c);
      var inode := Run(INITIAL, steps).clients[c].inode;
      if c in before.clients && before.clients[c] == Reading(inode) {
        k := ReadingWasOpened(steps[..last], c);
        assert steps[..last][..k] == steps[..k];
      } else {
        k := last;
      }
      assert Exposed(before, inode);
      ExposedStays(before, steps[last], inode);
    }
  }

  lemma {:induction false} ReachableIsExposed(steps: seq<Step>)
    ensures var s := Run(INITIAL, steps);
            && FilesWhole(s) && (s.path.Some? ==> Exposed(s, s.path.value))
            && (forall c :: c in s.clients && s.clients[c].Reading? ==> Exposed(s, s.clients[c].inode))
  {
    ReachableKeepsInv(steps);
    hide Exposed, Run;
  }

  lemma {:induction false} RunSnoc(s: State, steps: seq<Step>)
    requires steps != []
    ensures Run(s, steps) == Apply(Run(s, steps[..|steps| - 1]), steps[|steps| - 1])
  {
    hide Apply;
    var last := |steps| - 1;
    assert steps == steps[..last] + [steps[last]];
    RunConcat(s, steps[..last], [steps[last]]);
    assert [steps[last]][1..] == [];
  }

  /**
   * A client that has returned `Registered` opened the registration file at some moment of the run, and
   * what it returned was then in place, complete and published by its owner.
   */
  lemma {:induction false} RegisteredWasInPlace(steps: seq<Step>, c: nat) returns (k: nat)
    requires var s := Run(INITIAL, steps); c in s.clients && s.clients[c].Done? && s.clients[c].outcome.Registered?
    ensures k < |steps| && steps[k] == OpenRegistration(c) && Enabled(Run(INITIAL, steps[..k]), steps[k])
    ensures var owner := Run(INITIAL, steps).clients[c].outcome.owner;
            Owned(Run(INITIAL, steps[..k]), owner) && owner in Run(INITIAL, steps[..k]).history
    decreases |steps|
  {
    hide Apply, Inv;
    if steps == [] {
      assert false;
    } else {
      var last := |steps| - 1;
      var before := Run(INITIAL, steps[..last]);
      RunSnoc(INITIAL, steps);
      ClientGets(before, steps[last], c);
      hide Enabled;
      if c in before.clients && before.clients[c] == Run(INITIAL, steps).clients[c] {
        k := RegisteredWasInPlace(steps[..last], c);
        assert steps[..last][..k] == steps[..k];
      } else {
        ReadingIsEnabled(before, c);
        k := ReadingWasOpened(steps[..last], c);
        assert steps[..last][..k] == steps[..k];
        ReachableIsExposed(steps[..k]);
      }
    }
  }

  lemma {:induction false} ReadingIsEnabled(s: State, c: nat)
    ensures Enabled(s, ReadRegistration(c)) <==> c in s.clients && s.clients[c].Reading?
  {
  }

  lemma {:induction false} RunConcat(s: State, a: seq<Step>, b: seq<Step>)
    ensures Run(s, a + b) == Run(Run(s, a), b)
    decreases |a|
  {
    hide Apply;
    if a == [] {
      assert a + b == b;
    } else {
      assert (a + b)[1..] == a[1..] + b;
      RunConcat(Apply(s, a[0]), a[1..], b);
    }
  }

  lemma {:induction false} HistoryGrowsByRename(s: State, step: Step, owner: nat)
    requires FilesWhole(s) && owner in Apply(s, step).history && owner !in s.history
    ensures Owned(Apply(s, step), owner) && At(Apply(s, step), owner, Renamed)
  {
    if OfServer(step) { ServerWrites(s, step); } else { ClientMoves(s, step); }
    hide Exposed, PerformClient;
    assert step == Rename(owner);
  }

  /** Whoever is on record was at some moment in place, complete, its server holding the lock. */
  lemma {:induction false} HistoryWasInPlace(steps: seq<Step>, owner: nat) returns (k: nat)
    requires owner in Run(INITIAL, steps).history
    ensures k <= |steps|
    ensures var s := Run(INITIAL, steps[..k]); Owned(s, owner) && s.lock == Server(owner)
    decreases |steps|
  {
    hide Apply, Owned, FilesWhole, AllEntitled, HistoryKnown;
    if steps == [] {
      assert false;
    } else {
      var last := |steps| - 1;
      var s := Run(INITIAL, steps[..last]);
      assert steps == steps[..last] + [steps[last]];
      RunConcat(INITIAL, steps[..last], [steps[last]]);
      assert Run(INITIAL, steps) == Apply(s, steps[last]) by { assert [steps[last]][1..] == []; }
      if owner in s.history {
        k := HistoryWasInPlace(steps[..last], owner);
        assert steps[..last][..k] == steps[..k];
      } else {
        k := |steps|;
        assert steps[..k] == steps;
        ReachableKeepsInv(steps[..last]);
        ReachableKeepsInv(steps);
        HistoryGrowsByRename(s, steps[last], owner);
      }
    }
  }

  lemma {:induction false} TempIsOpened(s: State, p: nat, inode: nat)
    requires At(s, p, Ready) && s.path.None? && p !in s.temps && inode !in s.inodes
    ensures Apply(Apply(s, SeeVacant(p)), OpenTemp(p, inode))
         == s.(servers := s.servers[p := Writing(inode)], temps := s.temps[p := inode], inodes := s.inodes[inode := Partial])
  {
    assert Apply(s, SeeVacant(p)) == Enter(s, p, Vacant);
    assert s.servers[p := Vacant][p := Writing(inode)] == s.servers[p := Writing(inode)];
  }

  lemma {:induction false} TempIsWritten(s: State, p: nat, inode: nat)
    requires At(s, p, Writing(inode))
    ensures Apply(s, WriteTemp(p)) == s.(servers := s.servers[p := Written(inode)], inodes := s.inodes[inode := Complete(p)])
  {
  }

  lemma {:induction false} TempIsRenamed(s: State, p: nat, inode: nat)
    requires At(s, p, Written(inode)) && inode in s.inodes && s.inodes[inode] == Complete(p)
    ensures var published := Apply(Apply(s, Rename(p)), SyncDirectory(p, true));
            At(published, p, Published) && Owned(published, p) && p in published.history && p !in published.temps
  {
    assert Apply(s, Rename(p))
        == Enter(s, p, Renamed).(path := Some(inode), temps := s.temps - {p}, history := s.history + {p});
  }

  /** A server that has acquired the control root and finds no registration publishes its own. */
  lemma {:induction false} PublicationSucceeds(s: State, p: nat, inode: nat)
    requires At(s, p, Ready) && s.path.None? && p !in s.temps && inode !in s.inodes
    ensures var written := Apply(Apply(Apply(s, SeeVacant(p)), OpenTemp(p, inode)), WriteTemp(p));
            var published := Apply(Apply(written, Rename(p)), SyncDirectory(p, true));
            At(published, p, Published) && Owned(published, p) && p in published.history && p !in published.temps
  {
    hide Apply;
    TempIsOpened(s, p, inode);
    var writing := Apply(Apply(s, SeeVacant(p)), OpenTemp(p, inode));
    TempIsWritten(writing, p, inode);
    TempIsRenamed(Apply(writing, WriteTemp(p)), p, inode);
  }
}
