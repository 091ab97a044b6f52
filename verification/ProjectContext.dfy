/**
 * Discovery of project guidance files (crates/morons-server/src/project_context.rs): a bounded walk over
 * the ancestors of a directory whose result must fit its serialized limit whatever warnings come later.
 */
module ProjectContext {
  import opened Basics
  import opened Utf8Text

  const CANDIDATES: seq<string> := ["AGENTS.override.md", "AGENTS.md", "AGENTS.MD", "CLAUDE.md", "CLAUDE.MD"]

  const MAX_ANCESTORS := 64
  const MAX_FILES := 16
  const MAX_FILE_BYTES := 16 * 1024
  const MAX_CONTENT_BYTES := 32 * 1024
  const MAX_PATH_BYTES := 4096
  const MAX_WARNINGS := 16
  const MAX_WARNING_BYTES := 512
  const WARNING_PATH_BYTES := 384
  const MAX_SNAPSHOT_BYTES := 64 * 1024

  // ----- paths and files -----

  /** A path component; one that is not UTF-8 has only a lossy rendering. */
  datatype Name = Utf8(text: string) | Raw(id: nat, lossy: string)

  datatype Path = Path(absolute: bool, names: seq<Name>)

  function Rendered(n: Name): string
  {
    match n case Utf8(text) => text case Raw(_, lossy) => lossy
  }

  predicate WellFormed(p: Path)
  {
    forall n :: n in p.names ==> Rendered(n) != "" && '/' !in Rendered(n)
  }

  function Join(names: seq<Name>): string
  {
    if names == [] then ""
    else if |names| == 1 then Rendered(names[0])
    else Rendered(names[0]) + "/" + Join(names[1..])
  }

  function Text(p: Path): string
  {
    (if p.absolute then "/" else "") + Join(p.names)
  }

  predicate IsUtf8(p: Path)
  {
    forall n :: n in p.names ==> n.Utf8?
  }

  function Child(directory: Path, name: string): Path
  {
    Path(directory.absolute, directory.names + [Utf8(name)])
  }

  /** What a stable file system shows under a path. */
  datatype Entry =
    | Missing
    | Unavailable
    | Special
    | File(opens: bool, declared: nat, size: nat, readable: bool, text: Option<string>)

  datatype FileSystem = FileSystem(canonical: Path -> Option<Path>, entry: Path -> Entry)

  ghost predicate Stable(fs: FileSystem)
  {
    forall p :: var e := fs.entry(p); e.File? && e.text.Some? ==> Bytes(e.text.value) == e.size
  }

  function Canonical(fs: FileSystem, p: Path): Path
  {
    match fs.canonical(p) case Some(q) => q case None => p
  }

  datatype ProjectFile = ProjectFile(path: string, global: bool, content: string)

  datatype Context = Context(enabled: bool, files: seq<ProjectFile>, warnings: seq<string>)

  const EMPTY := Context(true, [], [])

  // ----- serialized size -----

  function BoolBytes(b: bool): nat
  {
    if b then 4 else 5
  }

  function FileBytes(f: ProjectFile): nat
  {
    |"{'path':"| + Quoted(f.path) + |",'global':"| + BoolBytes(f.global) + |",'content':"| + Quoted(f.content) + |"}"|
  }

  function ListBytes(sizes: seq<nat>): nat
  {
    |"[]"| + Sum(sizes) + (if sizes == [] then 0 else |sizes| - 1)
  }

  function FileSizes(files: seq<ProjectFile>): (r: seq<nat>)
    ensures |r| == |files|
  {
    seq(|files|, i requires 0 <= i < |files| => FileBytes(files[i]))
  }

  function WarningSizes(warnings: seq<string>): (r: seq<nat>)
    ensures |r| == |warnings|
  {
    seq(|warnings|, i requires 0 <= i < |warnings| => Quoted(warnings[i]))
  }

  /** The length of the compact JSON form. */
  function Serialized(c: Context): nat
  {
    |"{'enabled':"| + BoolBytes(c.enabled) + |",'files':"| + ListBytes(FileSizes(c.files))
    + |",'warnings':"| + ListBytes(WarningSizes(c.warnings)) + |"}"|
  }

  function ContentBytes(files: seq<ProjectFile>): nat
  {
    Sum(seq(|files|, i requires 0 <= i < |files| => Bytes(files[i].content)))
  }

  predicate ValidFile(f: ProjectFile)
  {
    && f.path != "" && Bytes(f.path) <= MAX_PATH_BYTES && f.path[0] == '/' && NoControl(f.path)
    && Bytes(f.content) <= MAX_FILE_BYTES && '\0' !in f.content
  }

  predicate ValidWarning(w: string)
  {
    w != "" && Bytes(w) <= MAX_WARNING_BYTES && NoControl(w)
  }

  ghost predicate IsValid(c: Context)
  {
    && |c.files| <= MAX_FILES && |c.warnings| <= MAX_WARNINGS
    && (c.enabled || (c.files == [] && c.warnings == []))
    && (forall f :: f in c.files ==> ValidFile(f))
    && (forall i, j :: 0 <= i < j < |c.files| ==> c.files[i].path != c.files[j].path)
    && ContentBytes(c.files) <= MAX_CONTENT_BYTES
    && (forall w :: w in c.warnings ==> ValidWarning(w))
    && Serialized(c) <= MAX_SNAPSHOT_BYTES
  }

  // ----- the reserve -----

  /** The acceptance bound leaves room for every warning that may still be added. */
  const ACCEPTED_BYTES := MAX_SNAPSHOT_BYTES - MAX_WARNINGS * (MAX_WARNING_BYTES * 2 + 3)

  lemma {:induction false} WarningsFitTheReserve(sizes: seq<nat>, each: nat)
    requires forall i :: 0 <= i < |sizes| ==> sizes[i] <= each
    ensures Sum(sizes) <= |sizes| * each
  {
    if sizes != [] {
      WarningsFitTheReserve(sizes[1..], each);
    }
  }

  /** Dropping the warnings leaves at most the reserve less, adding valid ones costs at most the reserve. */
  lemma {:induction false} ReserveSuffices(c: Context)
    requires |c.warnings| <= MAX_WARNINGS && forall w :: w in c.warnings ==> ValidWarning(w)
    ensures Serialized(c.(warnings := [])) <= Serialized(c)
    ensures Serialized(c) <= Serialized(c.(warnings := [])) + MAX_WARNINGS * (MAX_WARNING_BYTES * 2 + 3)
  {
    var sizes := WarningSizes(c.warnings);
    forall i | 0 <= i < |sizes| ensures sizes[i] <= 2 * MAX_WARNING_BYTES + 2 {
      assert c.warnings[i] in c.warnings;
      EscapingAtMostDoubles(c.warnings[i]);
    }
    WarningsFitTheReserve(sizes, 2 * MAX_WARNING_BYTES + 2);
    assert |sizes| * (2 * MAX_WARNING_BYTES + 2) + |sizes| <= MAX_WARNINGS * (MAX_WARNING_BYTES * 2 + 3);
    assert WarningSizes([]) == [];
  }

  // ----- warnings -----

  datatype Reason =
    | AncestorLimit | Deadline | NoMetadata | UnsupportedPath | FileLimit | NotRegular | SerializedLimit
    | CannotOpen | ContentLimit | ReadFailed | NotUtf8 | HasNul | DeadlineBeforeAll

  /** The fixed phrases of the program. */
  datatype Wording = Wording(reason: Reason -> string, omission: string)

  /** What a warning has left for its reason after 384 bytes of path and a separator. */
  const REASON_BYTES := MAX_WARNING_BYTES - WARNING_PATH_BYTES - 2

  ghost predicate Fits(words: Wording)
  {
    && (forall r :: Bytes(words.reason(r)) <= REASON_BYTES && NoControl(words.reason(r)))
    && ValidWarning(words.omission)
  }

  function Warning(p: string, reason: string): (w: string)
    requires Bytes(reason) <= REASON_BYTES && NoControl(reason)
    ensures ValidWarning(w)
  {
    var shown := Floor(WithoutControls(p), WARNING_PATH_BYTES);
    BytesConcat(shown, ": ");
    BytesConcat(shown + ": ", reason);
    assert ": "[1..] == " ";
    assert Bytes(": ") == 2;
    shown + ": " + reason
  }

  function Warn(words: Wording, c: Context, p: Path, reason: Reason): (r: Context)
    requires Bytes(words.reason(reason)) <= REASON_BYTES && NoControl(words.reason(reason))
    requires |c.warnings| <= MAX_WARNINGS
    ensures r.files == c.files && r.enabled == c.enabled && r.warnings != []
    ensures |r.warnings| <= MAX_WARNINGS
  {
    if |c.warnings| == MAX_WARNINGS then c.(warnings := c.warnings[MAX_WARNINGS - 1 := words.omission])
    else c.(warnings := c.warnings + [Warning(Text(p), words.reason(reason))])
  }

  // ----- which files -----

  /** The first candidate name that is present in a directory. */
  function FirstPresent(fs: FileSystem, directory: Path, names: seq<string>): Option<Path>
  {
    if names == [] then None
    else if fs.entry(Child(directory, names[0])).Missing? then FirstPresent(fs, directory, names[1..])
    else Some(Child(directory, names[0]))
  }

  datatype Place = Place(directory: Path, global: bool)

  /** The guidance a directory offers: its first present candidate, when that is a readable text file. */
  function Offer(fs: FileSystem, place: Place): seq<ProjectFile>
  {
    match FirstPresent(fs, place.directory, CANDIDATES)
    case None => []
    case Some(p) =>
      var e := fs.entry(p);
      if e.File? && e.text.Some? then [ProjectFile(Text(p), place.global, e.text.value)] else []
  }

  predicate Repeated(fs: FileSystem, earlier: seq<Place>, place: Place)
  {
    exists q :: q in earlier && Canonical(fs, q.directory) == Canonical(fs, place.directory)
  }

  /** Everything offered along the places, outermost first, each directory once. */
  function Offers(fs: FileSystem, places: seq<Place>): seq<ProjectFile>
  {
    if places == [] then []
    else
      var front, last := places[..|places| - 1], places[|places| - 1];
      Offers(fs, front) + (if Repeated(fs, front, last) then [] else Offer(fs, last))
  }

  predicate Subsequence<T(==)>(a: seq<T>, b: seq<T>)
  {
    if a == [] then true
    else if b == [] then false
    else
      (a[|a| - 1] == b[|b| - 1] && Subsequence(a[..|a| - 1], b[..|b| - 1])) || Subsequence(a, b[..|b| - 1])
  }

  function Ancestors(p: Path): seq<Path>
    ensures |Ancestors(p)| == |p.names| + 1
    decreases |p.names|
  {
    if p.names == [] then [p] else Ancestors(Path(p.absolute, p.names[..|p.names| - 1])) + [p]
  }

  /** The global directory, then the ancestors from the root down to the directory itself. */
  function Places(global: Option<Path>, directory: Path): seq<Place>
  {
    var ancestors := Ancestors(directory);
    (if global.Some? then [Place(global.value, true)] else [])
    + seq(|ancestors|, i requires 0 <= i < |ancestors| => Place(ancestors[i], false))
  }

  // ----- distinct directories give distinct paths -----

  lemma {:induction false} JoinHead(names: seq<Name>)
    requires names != []
    ensures Rendered(names[0]) <= Join(names)
    ensures |names| == 1 ==> Join(names) == Rendered(names[0])
    ensures |names| > 1 ==>
              && |Join(names)| > |Rendered(names[0])| && Join(names)[|Rendered(names[0])|] == '/'
              && Join(names)[|Rendered(names[0])| + 1..] == Join(names[1..])
  {
  }

  lemma {:induction false} HeadNotShorter(a: seq<Name>, b: seq<Name>)
    requires a != [] && b != [] && Join(a) == Join(b)
    requires forall n :: n in b ==> '/' !in Rendered(n)
    ensures |Rendered(a[0])| >= |Rendered(b[0])|
  {
    hide Join;
    JoinHead(a);
    JoinHead(b);
    var q := Rendered(b[0]);
    assert b[0] in b;
    assert forall i :: 0 <= i < |q| ==> Join(b)[i] == q[i] && q[i] in q;
  }

  lemma {:induction false} JoinInjective(a: seq<Name>, b: seq<Name>)
    requires WellFormed(Path(true, a)) && WellFormed(Path(true, b)) && Join(a) == Join(b)
    ensures |a| == |b| && forall i :: 0 <= i < |a| ==> Rendered(a[i]) == Rendered(b[i])
  {
    hide Join;
    if a == [] || b == [] {
      if a != [] { JoinHead(a); assert a[0] in a; EmptyJoin(); }
      if b != [] { JoinHead(b); assert b[0] in b; EmptyJoin(); }
    } else {
      HeadNotShorter(a, b);
      HeadNotShorter(b, a);
      JoinHead(a);
      JoinHead(b);
      assert Rendered(a[0]) == Join(a)[..|Rendered(a[0])|] == Rendered(b[0]);
      if |a| > 1 && |b| > 1 {
        JoinInjective(a[1..], b[1..]);
        forall i | 0 <= i < |a| ensures Rendered(a[i]) == Rendered(b[i]) {
          if i > 0 { assert a[i] == a[1..][i - 1] && b[i] == b[1..][i - 1]; }
        }
      }
    }
  }

  lemma {:induction false} EmptyJoin()
    ensures Join([]) == ""
  {
  }

  lemma {:induction false} TextInjective(p: Path, q: Path)
    requires WellFormed(p) && WellFormed(q) && IsUtf8(p) && IsUtf8(q) && p.absolute && q.absolute
    requires Text(p) == Text(q)
    ensures p == q
  {
    assert Join(p.names) == Text(p)[1..] && Join(q.names) == Text(q)[1..];
    JoinInjective(p.names, q.names);
    forall i | 0 <= i < |p.names| ensures p.names[i] == q.names[i] {
      assert p.names[i] in p.names && q.names[i] in q.names;
    }
  }

  function Parent(p: Path): Path
    requires p.names != []
  {
    Path(p.absolute, p.names[..|p.names| - 1])
  }

  // ----- reading one file -----

  predicate Loadable(e: Entry, limit: nat)
  {
    e.File? && e.opens && e.declared <= limit && e.readable && e.size <= limit && e.text.Some? && '\0' !in e.text.value
  }

  method ReadFile(e: Entry, limit: nat) returns (r: Result<string, Reason>)
    requires e.File? && (e.text.Some? ==> Bytes(e.text.value) == e.size)
    ensures r.Ok? ==> Loadable(e, limit) && r.value == e.text.value
    ensures r.Err? ==> r.error == Deadline || !Loadable(e, limit)
  {
    if !e.opens { return Err(CannotOpen); }
    if e.declared > limit { return Err(ContentLimit); }
    var read := 0;
    while true
      invariant read <= e.size && read <= limit
      decreases e.size - read
    {
      var expired: bool := *;
      if expired { return Err(Deadline); }
      if !e.readable { return Err(ReadFailed); }
      if read == e.size { break; }
      var count :| 1 <= count <= 4096 && read + count <= e.size;
      if read + count > limit { return Err(ContentLimit); }
      read := read + count;
    }
    if e.text.None? { return Err(NotUtf8); }
    if '\0' in e.text.value { return Err(HasNul); }
    return Ok(e.text.value);
  }

  // ----- the walk -----

  /** What holds of the context throughout the walk; the size bound is on the files alone. */
  ghost predicate Growing(c: Context)
  {
    && c.enabled && |c.files| <= MAX_FILES && |c.warnings| <= MAX_WARNINGS
    && (forall f :: f in c.files ==> ValidFile(f))
    && (forall i, j :: 0 <= i < j < |c.files| ==> c.files[i].path != c.files[j].path)
    && ContentBytes(c.files) <= MAX_CONTENT_BYTES
    && (forall w :: w in c.warnings ==> ValidWarning(w))
    && Serialized(c.(warnings := [])) <= ACCEPTED_BYTES
  }

  lemma {:induction false} GrowingIsValid(c: Context)
    requires Growing(c)
    ensures IsValid(c)
  {
    ReserveSuffices(c);
  }

  lemma {:induction false} WarnKeepsGrowing(words: Wording, c: Context, p: Path, reason: Reason)
    requires Growing(c) && Fits(words)
    ensures Growing(Warn(words, c, p, reason))
  {
    hide Serialized, ContentBytes, ValidFile, ValidWarning, Warning;
  }

  lemma {:induction false} ContentBytesExtend(files: seq<ProjectFile>, f: ProjectFile)
    ensures ContentBytes(files + [f]) == ContentBytes(files) + Bytes(f.content)
  {
    var sizes := seq(|files|, i requires 0 <= i < |files| => Bytes(files[i].content));
    var longer := files + [f];
    assert seq(|longer|, i requires 0 <= i < |longer| => Bytes(longer[i].content)) == sizes + [Bytes(f.content)];
    SumConcat(sizes, [Bytes(f.content)]);
    assert Sum([Bytes(f.content)]) == Bytes(f.content) by { assert [Bytes(f.content)][1..] == []; }
  }

  lemma {:induction false} AcceptKeepsGrowing(c: Context, f: ProjectFile)
    requires Growing(c) && |c.files| < MAX_FILES && ValidFile(f)
    requires forall g :: g in c.files ==> g.path != f.path
    requires Bytes(f.content) <= MAX_CONTENT_BYTES - ContentBytes(c.files)
    requires Serialized(c.(files := c.files + [f])) <= ACCEPTED_BYTES
    ensures Growing(c.(files := c.files + [f]))
  {
    hide Serialized, ContentBytes, ValidFile, ValidWarning;
    var next := c.(files := c.files + [f]);
    ContentBytesExtend(c.files, f);
    ReserveSuffices(next);
  }

  predicate Supported(p: Path)
  {
    IsUtf8(p) && p.absolute && Bytes(Text(p)) <= MAX_PATH_BYTES && NoControl(Text(p))
  }

  /** A context after a place has been visited: the same files, or its one offer added. */
  ghost predicate Visited(fs: FileSystem, place: Place, before: Context, after: Context)
  {
    && Growing(after)
    && (before.warnings != [] ==> after.warnings != [])
    && (after.warnings == [] ==> after.files == before.files + Offer(fs, place))
    && (after.files == before.files
        || (|Offer(fs, place)| == 1 && after.files == before.files + Offer(fs, place)
            && FirstPresent(fs, place.directory, CANDIDATES).Some?
            && Supported(FirstPresent(fs, place.directory, CANDIDATES).value)))
  }

  /** Looks for the first present candidate of a directory and handles it. */
  method Visit(fs: FileSystem, words: Wording, context: Context, place: Place) returns (c: Context)
    requires Stable(fs) && Fits(words) && Growing(context)
    requires forall f, name :: f in context.files && name in CANDIDATES && Supported(Child(place.directory, name)) ==>
               f.path != Text(Child(place.directory, name))
    ensures Visited(fs, place, context, c)
  {
    hide Growing, Fits, Supported, Text;
    var i := 0;
    while i < |CANDIDATES|
      invariant 0 <= i <= |CANDIDATES|
      invariant FirstPresent(fs, place.directory, CANDIDATES) == FirstPresent(fs, place.directory, CANDIDATES[i..])
    {
      var path := Child(place.directory, CANDIDATES[i]);
      if fs.entry(path).Missing? {
        i := i + 1;
      } else {
        assert FirstPresent(fs, place.directory, CANDIDATES) == Some(path);
        assert CANDIDATES[i] in CANDIDATES;
        c := Consider(fs, words, context, place.global, path);
        return;
      }
    }
    c := context;
  }

  method Consider(fs: FileSystem, words: Wording, context: Context, global: bool, path: Path) returns (c: Context)
    requires Stable(fs) && Fits(words) && Growing(context) && !fs.entry(path).Missing? && path.names != []
    requires forall f :: f in context.files && Supported(path) ==> f.path != Text(path)
    ensures Growing(c)
    ensures context.warnings != [] ==> c.warnings != []
    ensures (c.files == context.files && c.warnings != [])
         || (Supported(path) && fs.entry(path).File? && fs.entry(path).text.Some?
             && c.files == context.files + [ProjectFile(Text(path), global, fs.entry(path).text.value)])
  {
    hide Supported, Text, Serialized, ValidFile, ContentBytes, Fits;
    var entry := fs.entry(path);
    if entry.Unavailable? {
      c := Report(words, context, path, NoMetadata);
    } else if !Supported(path) {
      c := Report(words, context, path, UnsupportedPath);
    } else if |context.files| == MAX_FILES {
      c := Report(words, context, path, FileLimit);
    } else if !entry.File? {
      c := Report(words, context, path, NotRegular);
    } else {
      c := Load(fs, words, context, global, path);
    }
  }

  method Report(words: Wording, context: Context, path: Path, reason: Reason) returns (c: Context)
    requires Fits(words) && Growing(context)
    ensures Growing(c) && c.files == context.files && c.warnings != []
  {
    WarnKeepsGrowing(words, context, path, reason);
    c := Warn(words, context, path, reason);
  }

  /** Reads a candidate and keeps it only while the serialized context leaves room for every warning. */
  method Load(fs: FileSystem, words: Wording, context: Context, global: bool, path: Path) returns (c: Context)
    requires Stable(fs) && Fits(words) && Growing(context) && |context.files| < MAX_FILES
    requires Supported(path) && path.names != [] && fs.entry(path).File?
    requires forall f :: f in context.files ==> f.path != Text(path)
    ensures Growing(c)
    ensures context.warnings != [] ==> c.warnings != []
    ensures (c.files == context.files && c.warnings != [])
         || (fs.entry(path).text.Some? && c.files == context.files + [ProjectFile(Text(path), global, fs.entry(path).text.value)])
  {
    hide Serialized, Fits, Bytes;
    var entry := fs.entry(path);
    var limit := Min(MAX_FILE_BYTES, MAX_CONTENT_BYTES - ContentBytes(context.files));
    var content := ReadFile(entry, limit);
    if content.Err? {
      c := Report(words, context, path, content.error);
      return;
    }
    var file := ProjectFile(Text(path), global, content.value);
    c := context.(files := context.files + [file]);
    if Serialized(c) > ACCEPTED_BYTES {
      c := c.(files := context.files);
      c := Report(words, c, path, SerializedLimit);
    } else {
      AcceptKeepsGrowing(context, file);
    }
  }

  // ----- the whole discovery -----

  lemma {:induction false} CandidatesAreNames(name: string)
    requires name in CANDIDATES
    ensures name != "" && '/' !in name
  {
    assert '/' !in "AGENTS.override.md" && '/' !in "AGENTS.md" && '/' !in "AGENTS.MD";
    assert '/' !in "CLAUDE.md" && '/' !in "CLAUDE.MD";
  }

  lemma {:induction false} AncestorsAreWellFormed(p: Path)
    requires WellFormed(p)
    ensures forall a :: a in Ancestors(p) ==> WellFormed(a)
    decreases |p.names|
  {
    if p.names != [] {
      AncestorsAreWellFormed(Path(p.absolute, p.names[..|p.names| - 1]));
    }
  }

  lemma {:induction false} PlacesAreWellFormed(global: Option<Path>, directory: Path)
    requires WellFormed(directory) && (global.Some? ==> WellFormed(global.value))
    ensures forall q :: q in Places(global, directory) ==> WellFormed(q.directory)
  {
    AncestorsAreWellFormed(directory);
    var ancestors := Ancestors(directory);
    assert forall i :: 0 <= i < |ancestors| ==> ancestors[i] in ancestors;
  }

  lemma {:induction false} FirstPresentIsACandidate(fs: FileSystem, directory: Path, names: seq<string>)
    requires FirstPresent(fs, directory, names).Some?
    ensures exists name :: name in names && FirstPresent(fs, directory, names).value == Child(directory, name)
  {
    if fs.entry(Child(directory, names[0])).Missing? {
      FirstPresentIsACandidate(fs, directory, names[1..]);
      var name :| name in names[1..] && FirstPresent(fs, directory, names).value == Child(directory, name);
      assert name in names;
    } else {
      assert names[0] in names;
    }
  }

  lemma {:induction false} SubsequenceOfLonger<T>(a: seq<T>, b: seq<T>, c: seq<T>)
    requires Subsequence(a, b)
    ensures Subsequence(a, b + c)
    decreases |c|
  {
    if c == [] {
      assert b + c == b;
    } else {
      var front := c[..|c| - 1];
      assert (b + c)[..|b + c| - 1] == b + front;
      SubsequenceOfLonger(a, b, front);
    }
  }

  lemma {:induction false} SubsequenceBothLonger<T>(a: seq<T>, b: seq<T>, x: seq<T>)
    requires Subsequence(a, b) && |x| == 1
    ensures Subsequence(a + x, b + x)
  {
    assert (a + x)[..|a|] == a && (b + x)[..|b|] == b;
  }

  lemma {:induction false} OffersOfPrefix(fs: FileSystem, places: seq<Place>, i: nat)
    requires i <= |places|
    ensures Offers(fs, places[..i]) <= Offers(fs, places)
    decreases |places|
  {
    if i == |places| {
      assert places[..i] == places;
    } else {
      var front := places[..|places| - 1];
      assert front[..i] == places[..i];
      OffersOfPrefix(fs, front, i);
    }
  }

  /** Where a loaded file came from: a directory already on record. */
  ghost predicate From(fs: FileSystem, seen: set<Path>, f: ProjectFile, origin: Path)
  {
    && origin.names != [] && WellFormed(origin) && Supported(origin)
    && f.path == Text(origin) && Canonical(fs, Parent(origin)) in seen
  }

  lemma {:induction false} NewDirectoryGivesNewPath(fs: FileSystem, seen: set<Path>, f: ProjectFile,
        origin: Path, directory: Path, name: string)
    requires From(fs, seen, f, origin) && WellFormed(directory) && name in CANDIDATES && Supported(Child(directory, name))
    requires Canonical(fs, directory) !in seen
    ensures f.path != Text(Child(directory, name))
  {
    var child := Child(directory, name);
    CandidatesAreNames(name);
    assert WellFormed(child);
    assert Parent(child) == directory;
    if f.path == Text(child) {
      TextInjective(origin, child);
    }
  }

  ghost predicate AllFrom(fs: FileSystem, seen: set<Path>, files: seq<ProjectFile>, origins: seq<Path>)
  {
    |origins| == |files| && forall k :: 0 <= k < |files| ==> From(fs, seen, files[k], origins[k])
  }

  lemma {:induction false} OfferComesFromItsDirectory(fs: FileSystem, place: Place, seen: set<Path>)
    requires WellFormed(place.directory) && |Offer(fs, place)| == 1 && Canonical(fs, place.directory) in seen
    requires FirstPresent(fs, place.directory, CANDIDATES).Some?
    requires Supported(FirstPresent(fs, place.directory, CANDIDATES).value)
    ensures From(fs, seen, Offer(fs, place)[0], FirstPresent(fs, place.directory, CANDIDATES).value)
  {
    FirstPresentIsACandidate(fs, place.directory, CANDIDATES);
    var p := FirstPresent(fs, place.directory, CANDIDATES).value;
    var name :| name in CANDIDATES && p == Child(place.directory, name);
    CandidatesAreNames(name);
    assert WellFormed(p);
    assert Parent(p) == place.directory;
  }

  /** One pass of the walk: the place is new, and whatever it offers may be taken. */
  method Step(fs: FileSystem, words: Wording, context: Context, place: Place, seen: set<Path>, ghost origins: seq<Path>)
    returns (c: Context, ghost from: seq<Path>)
    requires Stable(fs) && Fits(words) && Growing(context) && WellFormed(place.directory)
    requires AllFrom(fs, seen, context.files, origins) && Canonical(fs, place.directory) !in seen
    ensures Visited(fs, place, context, c)
    ensures AllFrom(fs, seen + {Canonical(fs, place.directory)}, c.files, from)
  {
    hide From, Growing, Supported, Text, WellFormed, FirstPresent, Fits, Offer;
    forall f, name | f in context.files && name in CANDIDATES && Supported(Child(place.directory, name))
      ensures f.path != Text(Child(place.directory, name))
    {
      var k :| 0 <= k < |context.files| && context.files[k] == f;
      NewDirectoryGivesNewPath(fs, seen, f, origins[k], place.directory, name);
    }
    c := Visit(fs, words, context, place);
    ghost var grown := seen + {Canonical(fs, place.directory)};
    forall k | 0 <= k < |context.files| ensures From(fs, grown, context.files[k], origins[k]) {
      FromStays(fs, seen, grown, context.files[k], origins[k]);
    }
    from := origins;
    if c.files != context.files {
      OfferComesFromItsDirectory(fs, place, grown);
      from := origins + [FirstPresent(fs, place.directory, CANDIDATES).value];
    }
  }

  lemma {:induction false} FromStays(fs: FileSystem, seen: set<Path>, grown: set<Path>, f: ProjectFile, origin: Path)
    requires From(fs, seen, f, origin) && seen <= grown
    ensures From(fs, grown, f, origin)
  {
  }

  ghost predicate SeenExactly(fs: FileSystem, places: seq<Place>, seen: set<Path>)
  {
    && (forall q :: q in places ==> Canonical(fs, q.directory) in seen)
    && (forall p :: p in seen ==> exists q :: q in places && Canonical(fs, q.directory) == p)
  }

  /** The invariant of the walk after `done` places have been visited. */
  ghost predicate Walked(fs: FileSystem, done: seq<Place>, c: Context, seen: set<Path>, origins: seq<Path>)
  {
    && Growing(c) && AllFrom(fs, seen, c.files, origins) && SeenExactly(fs, done, seen)
    && Subsequence(c.files, Offers(fs, done))
    && (c.warnings == [] ==> c.files == Offers(fs, done))
  }

  lemma {:induction false} WalkBegins(fs: FileSystem)
    ensures Walked(fs, [], EMPTY, {}, [])
  {
    EmptyIsGrowing();
  }

  lemma {:induction false} WalkSkips(fs: FileSystem, done: seq<Place>, place: Place, c: Context,
        seen: set<Path>, origins: seq<Path>)
    requires Walked(fs, done, c, seen, origins) && Canonical(fs, place.directory) in seen
    ensures Walked(fs, done + [place], c, seen, origins)
  {
    hide Growing, AllFrom, Subsequence, Offer;
    assert (done + [place])[..|done|] == done;
    assert Repeated(fs, done, place);
    assert Offers(fs, done + [place]) == Offers(fs, done);
    forall p | p in seen ensures exists q :: q in done + [place] && Canonical(fs, q.directory) == p {
      var q :| q in done && Canonical(fs, q.directory) == p;
      assert q in done + [place];
    }
  }

  lemma {:induction false} WalkGoesOn(fs: FileSystem, done: seq<Place>, place: Place, before: Context, after: Context,
                   seen: set<Path>, origins: seq<Path>, from: seq<Path>)
    requires Walked(fs, done, before, seen, origins) && Canonical(fs, place.directory) !in seen
    requires Visited(fs, place, before, after)
    requires AllFrom(fs, seen + {Canonical(fs, place.directory)}, after.files, from)
    ensures Walked(fs, done + [place], after, seen + {Canonical(fs, place.directory)}, from)
  {
    hide Growing, AllFrom, Subsequence, Offer, Visited;
    assert (done + [place])[..|done|] == done;
    assert !Repeated(fs, done, place);
    TakenInOrder(fs, place, before, after, Offers(fs, done));
    var grown := seen + {Canonical(fs, place.directory)};
    forall p | p in grown ensures exists q :: q in done + [place] && Canonical(fs, q.directory) == p {
      if p in seen {
        var q :| q in done && Canonical(fs, q.directory) == p;
        assert q in done + [place];
      } else {
        assert place in done + [place];
      }
    }
  }

  method Walk(fs: FileSystem, words: Wording, places: seq<Place>) returns (c: Context)
    requires Stable(fs) && Fits(words) && forall q :: q in places ==> WellFormed(q.directory)
    ensures Growing(c)
    ensures Subsequence(c.files, Offers(fs, places))
    ensures c.warnings == [] ==> c.files == Offers(fs, places)
  {
    hide Growing, Fits, Visited, AllFrom, Subsequence, WellFormed, SeenExactly, Offers;
    c := EMPTY;
    var seen: set<Path> := {};
    ghost var origins: seq<Path> := [];
    WalkBegins(fs);
    var i := 0;
    while i < |places|
      invariant 0 <= i <= |places| && Walked(fs, places[..i], c, seen, origins)
    {
      var place := places[i];
      var expired: bool := *;
      if expired {
        c := Report(words, c, place.directory, Deadline);
        break;
      }
      assert places[..i + 1] == places[..i] + [place];
      var key := Canonical(fs, place.directory);
      if key in seen {
        WalkSkips(fs, places[..i], place, c, seen, origins);
      } else {
        ghost var before, known := c, origins;
        c, origins := Step(fs, words, c, place, seen, origins);
        WalkGoesOn(fs, places[..i], place, before, c, seen, known, origins);
        seen := seen + {key};
      }
      i := i + 1;
    }
    OffersOfPrefix(fs, places, i);
    var taken, all := Offers(fs, places[..i]), Offers(fs, places);
    SubsequenceOfLonger(c.files, taken, all[|taken|..]);
    assert taken + all[|taken|..] == all;
    assert places[..|places|] == places;
  }

  /**
   * For every stable file system, directory and clock the result is valid, what it loads is offered
   * guidance in order, and without a warning nothing offered is missing.
   */
  method Discover(fs: FileSystem, words: Wording, global: Option<Path>, directory: Path) returns (c: Context)
    requires Stable(fs) && Fits(words) && WellFormed(directory) && (global.Some? ==> WellFormed(global.value))
    ensures IsValid(c) && c.enabled
    ensures Subsequence(c.files, Offers(fs, Places(global, directory)))
    ensures c.warnings == [] ==> c.files == Offers(fs, Places(global, directory))
    ensures |directory.names| >= MAX_ANCESTORS ==> c.files == [] && c.warnings != []
  {
    hide Growing, Fits, Subsequence, IsValid, Places, Offers, WellFormed;
    if |Ancestors(directory)| > MAX_ANCESTORS {
      EmptyIsGrowing();
      c := Report(words, EMPTY, directory, AncestorLimit);
      EmptySubsequence(Offers(fs, Places(global, directory)));
    } else {
      PlacesAreWellFormed(global, directory);
      c := Walk(fs, words, Places(global, directory));
    }
    GrowingIsValid(c);
    ValidIsEnabled(c);
  }

  lemma {:induction false} TakenInOrder(fs: FileSystem, place: Place, before: Context, after: Context,
        offers: seq<ProjectFile>)
    requires Visited(fs, place, before, after) && Subsequence(before.files, offers)
    requires before.warnings == [] ==> before.files == offers
    ensures Subsequence(after.files, offers + Offer(fs, place))
    ensures after.warnings == [] ==> after.files == offers + Offer(fs, place)
    ensures Growing(after)
  {
    hide Growing, Offer, Supported, FirstPresent;
    if after.files == before.files {
      SubsequenceOfLonger(before.files, offers, Offer(fs, place));
    } else {
      SubsequenceBothLonger(before.files, offers, Offer(fs, place));
    }
  }

  lemma {:induction false} EmptyIsGrowing()
    ensures Growing(EMPTY)
  {
    assert FileSizes([]) == [] && WarningSizes([]) == [];
  }

  lemma {:induction false} EmptySubsequence<T>(b: seq<T>)
    ensures Subsequence([], b)
  {
  }

  lemma {:induction false} ValidIsEnabled(c: Context)
    requires Growing(c)
    ensures c.enabled
  {
  }

  /** The service: switched off, too busy, or a discovery that may be cut short by its own deadline. */
  method DiscoverForRun(fs: FileSystem, words: Wording, enabled: bool, permits: nat, global: Option<Path>,
        directory: Path)
    returns (r: Result<Context, ()>)
    requires Stable(fs) && Fits(words) && WellFormed(directory) && (global.Some? ==> WellFormed(global.value))
    ensures r.Ok? ==> IsValid(r.value) && r.value.enabled == enabled
    ensures r.Ok? && enabled && r.value.warnings == [] ==> r.value.files == Offers(fs, Places(global, directory))
    ensures !enabled ==> r.Ok?
  {
    if !enabled {
      assert FileSizes([]) == [] && WarningSizes([]) == [];
      return Ok(EMPTY.(enabled := false));
    }
    if permits == 0 { return Err(()); }
    var finished, failed: bool := *, *;
    var c: Context;
    if finished {
      c := Discover(fs, words, global, directory);
      if failed { return Err(()); }
    } else {
      EmptyIsGrowing();
      c := Report(words, EMPTY, Path(false, [Utf8("project context")]), DeadlineBeforeAll);
      GrowingIsValid(c);
      ValidIsEnabled(c);
    }
    return Ok(c);
  }
}
