/**
 * The skill catalogue of a run (crates/morons-server/src/skills.rs): precedence between levels, explicit
 * activation by `@name`, the bounded catalogue, and the checker that later recomputes the activation
 * from the skills that survived.
 */
module Skills {
  import opened Basics
  import opened Utf8Text

  const MAX_DISCOVERED := 128
  const MAX_ACTIVE := 4
  const MAX_FILE_BYTES := 128 * 1024
  const MAX_DESCRIPTION_BYTES := 1024
  const MAX_NAME_BYTES := 64
  const MAX_PATH_BYTES := 4 * 1024
  const MAX_CATALOG_BYTES := 128 * 1024
  const MAX_ACTIVE_BYTES := 192 * 1024
  const MAX_DEVELOPER_BYTES := 512 * 1024

  datatype Source = Bundled | User | Project

  /** A parsed SKILL.md. */
  datatype Skill = Skill(name: string, description: string, file: string, source: Source, instructions: string)

  datatype Snapshot = Snapshot(name: string, description: string, file: string, source: Source, active: bool,
                               instructions: Option<string>)

  // ----- names -----

  predicate NameChar(c: char)
  {
    'a' <= c <= 'z' || '0' <= c <= '9' || c == '-'
  }

  predicate ValidName(name: string)
  {
    && name != "" && Bytes(name) <= MAX_NAME_BYTES
    && name[0] != '-' && name[|name| - 1] != '-'
    && (forall i :: 0 <= i < |name| - 1 ==> !(name[i] == '-' && name[i + 1] == '-'))
    && (forall c :: c in name ==> NameChar(c))
  }

  /** What parsing a SKILL.md guarantees. */
  predicate Parsed(s: Skill)
  {
    && ValidName(s.name)
    && s.description != "" && Bytes(s.description) <= MAX_DESCRIPTION_BYTES && NoControl(s.description)
    && s.file != "" && Bytes(s.file) <= MAX_PATH_BYTES && NoControl(s.file)
    && s.instructions != "" && Bytes(s.instructions) <= MAX_FILE_BYTES
  }

  /** The order of names as byte strings. */
  predicate Before(a: string, b: string)
  {
    if b == "" then false
    else if a == "" then true
    else a[0] < b[0] || (a[0] == b[0] && Before(a[1..], b[1..]))
  }

  lemma {:induction false} BeforeIsTransitive(a: string, b: string, c: string)
    requires Before(a, b) && Before(b, c)
    ensures Before(a, c)
  {
    if a != "" && a[0] == b[0] && b[0] == c[0] {
      BeforeIsTransitive(a[1..], b[1..], c[1..]);
    }
  }

  lemma {:induction false} BeforeIsTotal(a: string, b: string)
    ensures a == b || Before(a, b) || Before(b, a)
    ensures !(Before(a, b) && Before(b, a)) && !Before(a, a)
  {
    if a != "" && b != "" {
      BeforeIsTotal(a[1..], b[1..]);
      assert a == [a[0]] + a[1..] && b == [b[0]] + b[1..];
    }
    BeforeIsIrreflexive(a);
  }

  lemma {:induction false} BeforeIsIrreflexive(a: string)
    ensures !Before(a, a)
  {
    if a != "" { BeforeIsIrreflexive(a[1..]); }
  }

  ghost predicate Ascending(names: seq<string>)
  {
    forall i, j :: 0 <= i < j < |names| ==> Before(names[i], names[j])
  }

  // ----- precedence -----

  /** The candidates with a name, in the order found. */
  function Named(candidates: seq<Skill>, name: string): seq<Skill>
  {
    if candidates == [] then []
    else
      Named(candidates[..|candidates| - 1], name)
      + (if candidates[|candidates| - 1].name == name then [candidates[|candidates| - 1]] else [])
  }

  /** A level over a catalogue: a single candidate replaces the name, a collision removes it. */
  ghost predicate Overlaid(candidates: seq<Skill>, below: map<string, Skill>, name: string, above: map<string, Skill>)
  {
    var here := Named(candidates, name);
    if here == [] then (name in above <==> name in below) && (name in below ==> above[name] == below[name])
    else (name in above <==> |here| == 1) && (name in above ==> above[name] == here[0])
  }

  lemma {:induction false} NamedAre(candidates: seq<Skill>, name: string)
    ensures forall s :: s in Named(candidates, name) <==> s in candidates && s.name == name
  {
    if candidates != [] {
      var front, last := candidates[..|candidates| - 1], candidates[|candidates| - 1];
      NamedAre(front, name);
      assert candidates == front + [last];
    }
  }

  method GroupByName(candidates: seq<Skill>) returns (grouped: map<string, seq<Skill>>)
    ensures forall name :: name in grouped <==> Named(candidates, name) != []
    ensures forall name :: name in grouped ==> grouped[name] == Named(candidates, name)
  {
    grouped := map[];
    var i := 0;
    while i < |candidates|
      invariant 0 <= i <= |candidates|
      invariant forall name :: name in grouped <==> Named(candidates[..i], name) != []
      invariant forall name :: name in grouped ==> grouped[name] == Named(candidates[..i], name)
    {
      var candidate := candidates[i];
      ghost var before := grouped;
      var group := if candidate.name in grouped then grouped[candidate.name] else [];
      grouped := grouped[candidate.name := group + [candidate]];
      forall name
        ensures Named(candidates[..i + 1], name) == Named(candidates[..i], name) + (if candidate.name == name then [candidate] else [])
      {
        assert candidates[..i + 1][..i] == candidates[..i];
      }
      i := i + 1;
    }
    assert candidates[..i] == candidates;
  }

  method MergePrecedence(candidates: seq<Skill>, selected: map<string, Skill>) returns (merged: map<string, Skill>)
    ensures forall name :: Overlaid(candidates, selected, name, merged)
  {
    hide Named;
    var grouped := GroupByName(candidates);
    merged := selected;
    var names := grouped.Keys;
    while names != {}
      invariant names <= grouped.Keys
      invariant forall name :: name !in names ==> Overlaid(candidates, selected, name, merged)
      invariant forall name :: name in names ==>
                  (name in merged <==> name in selected) && (name in selected ==> merged[name] == selected[name])
      decreases |names|
    {
      var name :| name in names;
      var group := grouped[name];
      ghost var before := merged;
      if |group| == 1 {
        merged := merged[name := group[0]];
      } else {
        merged := merged - {name};
      }
      forall other | other !in names - {name} ensures Overlaid(candidates, selected, other, merged) {
        if other != name { assert Overlaid(candidates, selected, other, before); }
      }
      names := names - {name};
    }
  }

  /** Levels from the lowest to the highest: the catalogue every merge in turn produces. */
  ghost predicate Decides(levels: seq<seq<Skill>>, name: string, k: nat)
  {
    && k < |levels| && Named(levels[k], name) != []
    && forall j :: k < j < |levels| ==> Named(levels[j], name) == []
  }

  /** The catalogue maps each name to the only candidate at the highest level that has it, or to nothing. */
  ghost predicate Catalogue(levels: seq<seq<Skill>>, selected: map<string, Skill>)
  {
    && (forall name: string, k: nat :: Decides(levels, name, k) ==>
          (name in selected <==> |Named(levels[k], name)| == 1) && (name in selected ==> selected[name] == Named(levels[k], name)[0]))
    && (forall name :: name in selected ==> exists k: nat :: Decides(levels, name, k))
  }

  lemma {:induction false} OneMoreLevel(levels: seq<seq<Skill>>, level: seq<Skill>, below: map<string, Skill>,
        above: map<string, Skill>)
    requires Catalogue(levels, below) && forall name :: Overlaid(level, below, name, above)
    ensures Catalogue(levels + [level], above)
  {
    hide Named;
    var all := levels + [level];
    forall name: string, k: nat | Decides(all, name, k)
      ensures (name in above <==> |Named(all[k], name)| == 1) && (name in above ==> above[name] == Named(all[k], name)[0])
    {
      assert Overlaid(level, below, name, above);
      if k < |levels| {
        assert all[|levels|] == level;
        assert Decides(levels, name, k) by {
          forall j | k < j < |levels| ensures Named(levels[j], name) == [] { assert all[j] == levels[j]; }
        }
      }
    }
    forall name | name in above ensures exists k: nat :: Decides(all, name, k) {
      assert Overlaid(level, below, name, above);
      if Named(level, name) == [] {
        var k: nat :| Decides(levels, name, k);
        assert Decides(all, name, k);
      } else {
        assert Decides(all, name, |levels|);
      }
    }
  }

  method MergeLevels(bundled: seq<Skill>, user: seq<Skill>, project: seq<Skill>) returns (selected: map<string, Skill>)
    ensures Catalogue([bundled, user, project], selected)
  {
    hide Catalogue, Overlaid;
    NothingCatalogued();
    assert [] + [bundled] == [bundled] && [bundled] + [user] == [bundled, user];
    assert [bundled, user] + [project] == [bundled, user, project];
    var first := MergePrecedence(bundled, map[]);
    OneMoreLevel([], bundled, map[], first);
    var second := MergePrecedence(user, first);
    OneMoreLevel([bundled], user, first, second);
    selected := MergePrecedence(project, second);
    OneMoreLevel([bundled, user], project, second, selected);
  }

  lemma {:induction false} NothingCatalogued()
    ensures Catalogue([], map[])
  {
  }

  lemma {:induction false} CataloguedIsACandidate(levels: seq<seq<Skill>>, selected: map<string, Skill>, name: string)
    requires Catalogue(levels, selected) && name in selected
    ensures selected[name].name == name && exists k :: 0 <= k < |levels| && selected[name] in levels[k]
  {
    var k: nat :| Decides(levels, name, k);
    NamedAre(levels[k], name);
    assert selected[name] in Named(levels[k], name);
  }

  // ----- activation -----

  /** The white space of Unicode. */
  predicate IsSpace(c: char)
  {
    var n := c as int;
    9 <= n <= 13 || n in {0x20, 0x85, 0xa0, 0x1680, 0x2028, 0x2029, 0x202f, 0x205f, 0x3000} || 0x2000 <= n <= 0x200a
  }

  /** Words separated by white space; `word` is the one being read. */
  function Tokens(prompt: string, word: string := ""): seq<string>
    decreases |prompt|
  {
    if prompt == "" then (if word == "" then [] else [word])
    else if IsSpace(prompt[0]) then (if word == "" then [] else [word]) + Tokens(prompt[1..], "")
    else Tokens(prompt[1..], word + [prompt[0]])
  }

  predicate Invokes(token: string)
  {
    token != "" && token[0] == '@'
  }

  /** The installed names invoked by the tokens, each once, in the order first invoked. */
  function Invoked(tokens: seq<string>, installed: set<string>): seq<string>
  {
    if tokens == [] then []
    else
      var before, last := Invoked(tokens[..|tokens| - 1], installed), tokens[|tokens| - 1];
      if Invokes(last) && last[1..] in installed && last[1..] !in before then before + [last[1..]] else before
  }

  method ActiveSkillNames(prompt: string, installed: set<string>) returns (active: seq<string>)
    ensures active == Invoked(Tokens(prompt), installed)
  {
    active := [];
    var tokens := Tokens(prompt);
    for i := 0 to |tokens|
      invariant active == Invoked(tokens[..i], installed)
    {
      assert tokens[..i + 1][..i] == tokens[..i];
      var token := tokens[i];
      if Invokes(token) {
        var name := token[1..];
        if name in installed && name !in active {
          active := active + [name];
        }
      }
    }
    assert tokens[..|tokens|] == tokens;
  }

  lemma {:induction false} InvokedAre(tokens: seq<string>, installed: set<string>)
    ensures var r := Invoked(tokens, installed);
            && (forall name :: name in r <==> name in installed && exists t :: t in tokens && Invokes(t) && t[1..] == name)
            && (forall i, j :: 0 <= i < j < |r| ==> r[i] != r[j])
  {
    if tokens != [] {
      var front, last := tokens[..|tokens| - 1], tokens[|tokens| - 1];
      InvokedAre(front, installed);
      assert tokens == front + [last];
      var r := Invoked(tokens, installed);
      forall name | name in installed && exists t :: t in tokens && Invokes(t) && t[1..] == name ensures name in r {
        var t :| t in tokens && Invokes(t) && t[1..] == name;
        if t in front { assert name in Invoked(front, installed); }
      }
    }
  }

  function Keep(names: seq<string>, kept: set<string>): seq<string>
  {
    if names == [] then []
    else
      Keep(names[..|names| - 1], kept) + (if names[|names| - 1] in kept then [names[|names| - 1]] else [])
  }

  lemma {:induction false} KeepAre(names: seq<string>, kept: set<string>)
    ensures forall name :: name in Keep(names, kept) <==> name in names && name in kept
    ensures |Keep(names, kept)| <= |names|
  {
    if names != [] {
      var front, last := names[..|names| - 1], names[|names| - 1];
      KeepAre(front, kept);
      assert names == front + [last];
    }
  }

  lemma {:induction false} KeepPrefix(names: seq<string>, kept: set<string>, k: nat)
    requires k <= |names|
    ensures Keep(names[..k], kept) <= Keep(names, kept)
    decreases |names|
  {
    if k == |names| {
      assert names[..k] == names;
    } else {
      var front := names[..|names| - 1];
      assert front[..k] == names[..k];
      KeepPrefix(front, kept, k);
    }
  }

  /** With fewer skills installed, the invoked names are the same ones in the same order, less the missing. */
  lemma {:induction false} InvokedAmongFewer(tokens: seq<string>, installed: set<string>, fewer: set<string>)
    requires fewer <= installed
    ensures Invoked(tokens, fewer) == Keep(Invoked(tokens, installed), fewer)
  {
    if tokens != [] {
      var front, last := tokens[..|tokens| - 1], tokens[|tokens| - 1];
      InvokedAmongFewer(front, installed, fewer);
      KeepAre(Invoked(front, installed), fewer);
      if Invokes(last) {
        var before := Invoked(front, installed);
        assert (before + [last[1..]])[..|before|] == before;
      }
    }
  }

  function FirstFew(names: seq<string>): seq<string>
  {
    names[..Min(MAX_ACTIVE, |names|)]
  }

  /** Shrinking the installed set never pushes a remaining name out of the first four. */
  lemma {:induction false} FirstFewSurvive(tokens: seq<string>, installed: set<string>, fewer: set<string>,
        name: string)
    requires fewer <= installed && name in fewer && name in FirstFew(Invoked(tokens, installed))
    ensures name in FirstFew(Invoked(tokens, fewer))
  {
    var all, some := Invoked(tokens, installed), Invoked(tokens, fewer);
    var k := Min(MAX_ACTIVE, |all|);
    InvokedAmongFewer(tokens, installed, fewer);
    KeepPrefix(all, fewer, k);
    KeepAre(all[..k], fewer);
    var kept := Keep(all[..k], fewer);
    assert name in kept && kept <= some && |kept| <= MAX_ACTIVE;
    var i :| 0 <= i < |kept| && kept[i] == name;
    assert FirstFew(some)[i] == name;
  }

  // ----- the bounded catalogue -----

  function NameSet(skills: seq<Snapshot>): set<string>
  {
    set s | s in skills :: s.name
  }

  function MetadataBytes(s: Snapshot): nat
  {
    Bytes(s.name) + Bytes(s.description) + Bytes(s.file)
  }

  function CatalogBytes(skills: seq<Snapshot>): nat
  {
    if skills == [] then 0 else CatalogBytes(skills[..|skills| - 1]) + MetadataBytes(skills[|skills| - 1])
  }

  function InstructionBytes(s: Snapshot): nat
  {
    if s.instructions.Some? then Bytes(s.instructions.value) else 0
  }

  function ActiveBytes(skills: seq<Snapshot>): nat
  {
    if skills == [] then 0 else ActiveBytes(skills[..|skills| - 1]) + InstructionBytes(skills[|skills| - 1])
  }

  function ActiveCount(skills: seq<Snapshot>): nat
  {
    if skills == [] then 0 else ActiveCount(skills[..|skills| - 1]) + (if skills[|skills| - 1].active then 1 else 0)
  }

  function Snapped(s: Skill, active: bool): Snapshot
  {
    Snapshot(s.name, s.description, s.file, s.source, active, if active then Some(s.instructions) else None)
  }

  /** Entry `k` is the skill selected under its name, active if wanted and if its instructions still fit. */
  predicate Chosen(selected: map<string, Skill>, names: seq<string>, wanted: seq<string>, skills: seq<Snapshot>, k: nat)
    requires k < |skills| && k < |names| && names[k] in selected
  {
    var skill := selected[names[k]];
    skills[k] == Snapped(skill, skill.name in wanted && ActiveBytes(skills[..k]) + Bytes(skill.instructions) <= MAX_ACTIVE_BYTES)
  }

  ghost predicate Selectable(selected: map<string, Skill>, names: seq<string>)
  {
    Ascending(names) && forall n :: n in names ==> n in selected && selected[n].name == n && Parsed(selected[n])
  }

  /** The prefix of the names whose metadata fits, each as chosen. */
  ghost predicate Selection(selected: map<string, Skill>, names: seq<string>, wanted: seq<string>,
        skills: seq<Snapshot>)
  {
    && |skills| <= |names| && (forall n :: n in names ==> n in selected)
    && (forall k :: 0 <= k < |skills| ==> Chosen(selected, names, wanted, skills, k))
    && CatalogBytes(skills) <= MAX_CATALOG_BYTES && ActiveBytes(skills) <= MAX_ACTIVE_BYTES
  }

  lemma {:induction false} ChosenStays(selected: map<string, Skill>, names: seq<string>, wanted: seq<string>,
        skills: seq<Snapshot>, next: Snapshot)
    requires Selection(selected, names, wanted, skills) && |skills| < |names|
    requires CatalogBytes(skills) + MetadataBytes(next) <= MAX_CATALOG_BYTES
    requires ActiveBytes(skills) + InstructionBytes(next) <= MAX_ACTIVE_BYTES
    requires var skill := selected[names[|skills|]];
             next == Snapped(skill, skill.name in wanted && ActiveBytes(skills) + Bytes(skill.instructions) <= MAX_ACTIVE_BYTES)
    ensures Selection(selected, names, wanted, skills + [next])
  {
    hide MetadataBytes, InstructionBytes, Bytes, Snapped;
    var longer := skills + [next];
    assert longer[..|skills|] == skills;
    forall k | 0 <= k < |longer| ensures Chosen(selected, names, wanted, longer, k) {
      if k < |skills| {
        assert longer[..k] == skills[..k] && Chosen(selected, names, wanted, skills, k);
      }
    }
  }

  method Select(selected: map<string, Skill>, names: seq<string>, wanted: seq<string>) returns (skills: seq<Snapshot>)
    requires Selectable(selected, names)
    ensures Selection(selected, names, wanted, skills)
    ensures |skills| < |names| ==>
              CatalogBytes(skills) + MetadataBytes(Snapped(selected[names[|skills|]], false)) > MAX_CATALOG_BYTES
  {
    hide Bytes, CatalogBytes, ActiveBytes, Chosen, Parsed, Before;
    var catalogBytes, activeBytes := 0, 0;
    skills := [];
    NothingSelected(selected, names, wanted);
    var i := 0;
    while i < |names|
      invariant 0 <= i <= |names| && |skills| == i
      invariant Selection(selected, names, wanted, skills)
      invariant catalogBytes == CatalogBytes(skills) && activeBytes == ActiveBytes(skills)
    {
      assert names[i] in names;
      var skill := selected[names[i]];
      var next := catalogBytes + Bytes(skill.name) + Bytes(skill.description) + Bytes(skill.file);
      if next > MAX_CATALOG_BYTES { return; }
      catalogBytes := next;
      var active := skill.name in wanted;
      if active && activeBytes + Bytes(skill.instructions) > MAX_ACTIVE_BYTES {
        active := false;
      }
      var snapshot := Snapped(skill, active);
      ChosenStays(selected, names, wanted, skills, snapshot);
      SumsExtend(skills, snapshot);
      if active { activeBytes := activeBytes + Bytes(skill.instructions); }
      skills := skills + [snapshot];
      i := i + 1;
    }
  }

  lemma {:induction false} NothingSelected(selected: map<string, Skill>, names: seq<string>, wanted: seq<string>)
    requires forall n :: n in names ==> n in selected
    ensures Selection(selected, names, wanted, []) && CatalogBytes([]) == 0 && ActiveBytes([]) == 0
  {
  }

  lemma {:induction false} SumsExtend(skills: seq<Snapshot>, next: Snapshot)
    ensures CatalogBytes(skills + [next]) == CatalogBytes(skills) + MetadataBytes(next)
    ensures ActiveBytes(skills + [next]) == ActiveBytes(skills) + InstructionBytes(next)
  {
    assert (skills + [next])[..|skills|] == skills;
  }

  // ----- what the checker accepts -----

  const HEADER_BYTES := 359

  function SourceBytes(source: Source): nat
  {
    match source case Bundled => |"bundled"| case User => |"user"| case Project => |"project"|
  }

  /** One catalogue line: a JSON object with five members and a line feed. */
  function LineBytes(s: Snapshot): nat
  {
    |"{'active':,'description':,'name':,'skill_file':,'source':''}"| + (if s.active then 4 else 5)
    + Quoted(s.description) + Quoted(s.name) + Quoted(s.file) + SourceBytes(s.source) + 1
  }

  function ActiveTextBytes(s: Snapshot): nat
  {
    if s.instructions.None? then 0
    else
      |" <active_skill name="| + Quoted(s.name) + |" skill_file="| + Quoted(s.file) + |"> "|
      + Bytes(s.instructions.value) + |" </active_skill>"|
  }

  function SkillsText(skills: seq<Snapshot>): nat
  {
    if skills == [] then 0
    else SkillsText(skills[..|skills| - 1]) + LineBytes(skills[|skills| - 1]) + ActiveTextBytes(skills[|skills| - 1])
  }

  function DeveloperBytes(skills: seq<Snapshot>): nat
  {
    if skills == [] then 0 else HEADER_BYTES + SkillsText(skills) + |"</available_skills>"|
  }

  /** Everything the checker asks of one skill, except that its instructions parse again. */
  predicate WellKept(s: Snapshot)
  {
    && ValidName(s.name)
    && s.description != "" && Bytes(s.description) <= MAX_DESCRIPTION_BYTES && NoControl(s.description)
    && s.file != "" && Bytes(s.file) <= MAX_PATH_BYTES && NoControl(s.file)
    && s.instructions.Some? == s.active
    && (s.instructions.Some? ==> s.instructions.value != "" && Bytes(s.instructions.value) <= MAX_FILE_BYTES)
  }

  ghost predicate Reparse(skills: seq<Snapshot>, reparses: Snapshot -> bool)
  {
    forall s :: s in skills && s.active ==> reparses(s)
  }

  ghost predicate IsValid(skills: seq<Snapshot>, reparses: Snapshot -> bool)
  {
    && |skills| <= MAX_DISCOVERED && ActiveCount(skills) <= MAX_ACTIVE
    && (forall s :: s in skills ==> WellKept(s))
    && Reparse(skills, reparses)
    && CatalogBytes(skills) <= MAX_CATALOG_BYTES && ActiveBytes(skills) <= MAX_ACTIVE_BYTES
    && (forall i :: 0 <= i < |skills| - 1 ==> Before(skills[i].name, skills[i + 1].name))
    && (forall i, j :: 0 <= i < j < |skills| ==> skills[i].name != skills[j].name)
    && DeveloperBytes(skills) <= MAX_DEVELOPER_BYTES
  }

  /** The checker's own condition on activation, computed from the surviving skills alone. */
  ghost predicate InvocationsMatch(prompt: string, skills: seq<Snapshot>)
  {
    forall s :: s in skills && s.active ==> s.name in FirstFew(Invoked(Tokens(prompt), NameSet(skills)))
  }

  lemma {:induction false} NameHasNoControl(name: string)
    requires ValidName(name)
    ensures NoControl(name)
  {
    forall c | c in name ensures !IsControl(c) {
      assert NameChar(c);
    }
  }

  lemma {:induction false} OneSkillText(s: Snapshot)
    requires WellKept(s)
    ensures LineBytes(s) <= 79 + 2 * MetadataBytes(s)
    ensures ActiveTextBytes(s) <= (if s.active then 54 + 2 * (MAX_NAME_BYTES + MAX_PATH_BYTES) else 0) + InstructionBytes(s)
  {
    NameHasNoControl(s.name);
    hide Bytes, EscapedBytes, ValidName;
    EscapingAtMostDoubles(s.name);
    EscapingAtMostDoubles(s.description);
    EscapingAtMostDoubles(s.file);
    assert Bytes(s.name) <= MAX_NAME_BYTES by { NameIsShort(s.name); }
  }

  lemma {:induction false} NameIsShort(name: string)
    requires ValidName(name)
    ensures Bytes(name) <= MAX_NAME_BYTES
  {
  }

  lemma {:induction false} TextFollowsTheLimits(skills: seq<Snapshot>)
    requires forall s :: s in skills ==> WellKept(s)
    ensures SkillsText(skills) <= 79 * |skills| + 2 * CatalogBytes(skills)
                                + ActiveCount(skills) * (54 + 2 * (MAX_NAME_BYTES + MAX_PATH_BYTES)) + ActiveBytes(skills)
  {
    hide LineBytes, ActiveTextBytes, MetadataBytes, InstructionBytes, WellKept;
    if skills != [] {
      var front, last := skills[..|skills| - 1], skills[|skills| - 1];
      assert skills == front + [last];
      TextFollowsTheLimits(front);
      OneSkillText(last);
    }
  }

  /** The separate limits already keep the whole developer text inside its own. */
  lemma {:induction false} DeveloperTextFits(skills: seq<Snapshot>)
    requires |skills| <= MAX_DISCOVERED && ActiveCount(skills) <= MAX_ACTIVE
    requires forall s :: s in skills ==> WellKept(s)
    requires CatalogBytes(skills) <= MAX_CATALOG_BYTES && ActiveBytes(skills) <= MAX_ACTIVE_BYTES
    ensures DeveloperBytes(skills) <= MAX_DEVELOPER_BYTES
  {
    hide SkillsText, CatalogBytes, ActiveBytes, ActiveCount, WellKept;
    TextFollowsTheLimits(skills);
  }

  lemma {:induction false} ActivesAreFew(skills: seq<Snapshot>, few: set<string>)
    requires forall i, j :: 0 <= i < j < |skills| ==> skills[i].name != skills[j].name
    requires forall s :: s in skills && s.active ==> s.name in few
    ensures ActiveCount(skills) <= |few|
  {
    if skills != [] {
      var front, last := skills[..|skills| - 1], skills[|skills| - 1];
      if last.active {
        forall s | s in front && s.active ensures s.name in few - {last.name} {
          var i :| 0 <= i < |front| && front[i] == s;
          assert skills[i].name != skills[|skills| - 1].name;
        }
        ActivesAreFew(front, few - {last.name});
        assert last in skills;
      } else {
        ActivesAreFew(front, few);
      }
    }
  }

  lemma {:induction false} SetNoLarger(names: seq<string>)
    ensures |set n | n in names| <= |names|
  {
    var all := set n | n in names;
    if names != [] {
      SetNoLarger(names[1..]);
      var rest := set n | n in names[1..];
      assert names == [names[0]] + names[1..];
      assert all == rest + {names[0]};
    } else {
      assert all == {};
    }
  }

  /** A selection keeps the names it was given, so the checker sees a subset of what activation saw. */
  lemma {:induction false} SelectionNames(selected: map<string, Skill>, names: seq<string>,
        wanted: seq<string>, skills: seq<Snapshot>)
    requires Selectable(selected, names) && Selection(selected, names, wanted, skills)
    ensures forall k :: 0 <= k < |skills| ==> skills[k].name == names[k] && WellKept(skills[k])
    ensures forall s :: s in skills ==> WellKept(s)
    ensures forall s :: s in skills && s.active ==> s.name in wanted
    ensures NameSet(skills) <= set n | n in names
    ensures forall i, j :: 0 <= i < j < |skills| ==> Before(skills[i].name, skills[j].name) && skills[i].name != skills[j].name
  {
    hide ValidName, Bytes, CatalogBytes, ActiveBytes, Before;
    forall k | 0 <= k < |skills| ensures skills[k].name == names[k] && WellKept(skills[k]) && (skills[k].active ==> skills[k].name in wanted) {
      assert Chosen(selected, names, wanted, skills, k) && names[k] in names;
    }
    forall i, j | 0 <= i < j < |skills| ensures Before(skills[i].name, skills[j].name) && skills[i].name != skills[j].name {
      assert Before(names[i], names[j]);
      BeforeIsTotal(names[i], names[i]);
    }
  }

  /** Whatever was dropped from the catalogue, the checker agrees with every activation that remains. */
  lemma {:induction false} SelectionMatches(prompt: string, selected: map<string, Skill>, names: seq<string>,
        skills: seq<Snapshot>)
    requires Selectable(selected, names)
    requires Selection(selected, names, FirstFew(Invoked(Tokens(prompt), set n | n in names)), skills)
    ensures InvocationsMatch(prompt, skills)
    ensures ActiveCount(skills) <= MAX_ACTIVE
  {
    var installed := set n | n in names;
    var wanted := FirstFew(Invoked(Tokens(prompt), installed));
    SelectionNames(selected, names, wanted, skills);
    hide Selection, Selectable, Before;
    forall s | s in skills && s.active ensures s.name in FirstFew(Invoked(Tokens(prompt), NameSet(skills))) {
      FirstFewSurvive(Tokens(prompt), installed, NameSet(skills), s.name);
    }
    SetNoLarger(wanted);
    ActivesAreFew(skills, set n | n in wanted);
  }

  lemma {:induction false} SelectionIsValid(prompt: string, selected: map<string, Skill>, names: seq<string>,
        skills: seq<Snapshot>,
                         reparses: Snapshot -> bool)
    requires Selectable(selected, names) && |names| <= MAX_DISCOVERED
    requires Selection(selected, names, FirstFew(Invoked(Tokens(prompt), set n | n in names)), skills)
    ensures IsValid(skills, reparses) <==> Reparse(skills, reparses)
  {
    SelectionNames(selected, names, FirstFew(Invoked(Tokens(prompt), set n | n in names)), skills);
    SelectionMatches(prompt, selected, names, skills);
    hide Selectable, Chosen, Before, WellKept, DeveloperBytes, InvocationsMatch;
    DeveloperTextFits(skills);
  }

  /** The checker: one pass with running totals, then the limits and the order of neighbours. */
  method IsAccepted(skills: seq<Snapshot>, reparses: Snapshot -> bool) returns (ok: bool)
    ensures ok == IsValid(skills, reparses)
  {
    hide WellKept, DeveloperBytes, Before, MetadataBytes, InstructionBytes, ActiveCount;
    if |skills| > MAX_DISCOVERED || ActiveCount(skills) > MAX_ACTIVE { return false; }
    var names: set<string> := {};
    var catalogBytes, activeBytes := 0, 0;
    for i := 0 to |skills|
      invariant catalogBytes == CatalogBytes(skills[..i]) && activeBytes == ActiveBytes(skills[..i])
      invariant names == set k | 0 <= k < i :: skills[k].name
      invariant forall k :: 0 <= k < i ==> WellKept(skills[k]) && (skills[k].active ==> reparses(skills[k]))
      invariant forall j, k :: 0 <= j < k < i ==> skills[j].name != skills[k].name
    {
      var s := skills[i];
      assert skills[..i + 1][..i] == skills[..i];
      if !WellKept(s) || s.name in names || (s.active && !reparses(s)) {
        assert s in skills;
        return false;
      }
      names := names + {s.name};
      catalogBytes := catalogBytes + MetadataBytes(s);
      activeBytes := activeBytes + InstructionBytes(s);
    }
    assert skills[..|skills|] == skills;
    ok := catalogBytes <= MAX_CATALOG_BYTES && activeBytes <= MAX_ACTIVE_BYTES
          && (forall i :: 0 <= i < |skills| - 1 ==> Before(skills[i].name, skills[i + 1].name))
          && DeveloperBytes(skills) <= MAX_DEVELOPER_BYTES;
  }

  method Insert(sorted: seq<string>, name: string) returns (longer: seq<string>)
    requires Ascending(sorted) && name !in sorted
    ensures Ascending(longer) && forall n :: n in longer <==> n in sorted || n == name
  {
    hide Before;
    var i := 0;
    while i < |sorted| && Before(sorted[i], name)
      invariant 0 <= i <= |sorted| && forall k :: 0 <= k < i ==> Before(sorted[k], name)
    {
      i := i + 1;
    }
    if i < |sorted| {
      assert sorted[i] in sorted;
      BeforeIsTotal(sorted[i], name);
    }
    forall k | i <= k < |sorted| ensures Before(name, sorted[k]) {
      if k > i { BeforeIsTransitive(name, sorted[i], sorted[k]); }
    }
    longer := sorted[..i] + [name] + sorted[i..];
    assert sorted == sorted[..i] + sorted[i..];
  }

  /** The keys of an ordered map, in order. */
  method SortedNames(names: set<string>) returns (sorted: seq<string>)
    ensures Ascending(sorted) && (set n | n in sorted) == names
  {
    hide Ascending;
    sorted := [];
    EmptyIsAscending();
    var rest := names;
    while rest != {}
      invariant rest <= names && Ascending(sorted) && forall n :: n in sorted <==> n in names && n !in rest
      decreases |rest|
    {
      var name :| name in rest;
      sorted := Insert(sorted, name);
      rest := rest - {name};
    }
  }

  lemma {:induction false} EmptyIsAscending()
    ensures Ascending([])
  {
  }

  /**
   * The whole discovery over what the three levels hold.  `kept` is the bounded selection; the result is
   * that selection, or nothing exactly when some active skill's instructions would not parse again.
   */
  method Discover(bundled: seq<Skill>, user: seq<Skill>, project: seq<Skill>, prompt: string,
        reparses: Snapshot -> bool)
    returns (skills: seq<Snapshot>, catalogue: map<string, Skill>, names: seq<string>, kept: seq<Snapshot>)
    requires forall s :: s in bundled || s in user || s in project ==> Parsed(s)
    ensures Catalogue([bundled, user, project], catalogue)
    ensures Ascending(names) && (set n | n in names) <= catalogue.Keys
    ensures |names| == MAX_DISCOVERED || (set n | n in names) == catalogue.Keys
    ensures forall n, m :: n in names && m in catalogue && m !in names ==> Before(n, m)
    ensures Selection(catalogue, names, FirstFew(Invoked(Tokens(prompt), set n | n in names)), kept)
    ensures |kept| < |names| ==>
              names[|kept|] in catalogue
              && CatalogBytes(kept) + MetadataBytes(Snapped(catalogue[names[|kept|]], false)) > MAX_CATALOG_BYTES
    ensures skills == if Reparse(kept, reparses) then kept else []
    ensures IsValid(skills, reparses) && InvocationsMatch(prompt, skills)
  {
    hide Catalogue, Selection, Before, Parsed, IsValid, Reparse, InvocationsMatch, Bytes;
    catalogue := MergeLevels(bundled, user, project);
    var all := SortedNames(catalogue.Keys);
    names := all[..Min(MAX_DISCOVERED, |all|)];
    LaterNamesAreOmitted(all, |names|);
    assert forall m :: m in catalogue ==> m in set n | n in all;
    CatalogueIsSelectable(bundled, user, project, catalogue, names);
    var installed := set n | n in names;
    var active := ActiveSkillNames(prompt, installed);
    kept := Select(catalogue, names, FirstFew(active));
    SelectionIsValid(prompt, catalogue, names, kept, reparses);
    SelectionMatches(prompt, catalogue, names, kept);
    EmptyIsValid(prompt, reparses);
    var valid := IsAccepted(kept, reparses);
    skills := if valid then kept else [];
  }

  lemma {:induction false} LaterNamesAreOmitted(all: seq<string>, k: nat)
    requires Ascending(all) && k <= |all|
    ensures Ascending(all[..k])
    ensures forall n, m :: n in all[..k] && m in all && m !in all[..k] ==> Before(n, m)
  {
    hide Before;
    assert forall i :: 0 <= i < k ==> all[i] in all[..k];
    forall n, m | n in all[..k] && m in all && m !in all[..k] ensures Before(n, m) {
      var i :| 0 <= i < k && all[i] == n;
      var j :| 0 <= j < |all| && all[j] == m;
    }
  }

  lemma {:induction false} CatalogueIsSelectable(bundled: seq<Skill>, user: seq<Skill>, project: seq<Skill>,
        catalogue: map<string, Skill>,
                              names: seq<string>)
    requires Catalogue([bundled, user, project], catalogue)
    requires forall s :: s in bundled || s in user || s in project ==> Parsed(s)
    requires Ascending(names) && (set n | n in names) <= catalogue.Keys
    ensures Selectable(catalogue, names)
  {
    hide Parsed, Catalogue;
    forall n | n in names ensures n in catalogue && catalogue[n].name == n && Parsed(catalogue[n]) {
      assert n in set m | m in names;
      CataloguedIsACandidate([bundled, user, project], catalogue, n);
    }
  }

  lemma {:induction false} EmptyIsValid(prompt: string, reparses: Snapshot -> bool)
    ensures IsValid([], reparses) && InvocationsMatch(prompt, [])
  {
  }
}
