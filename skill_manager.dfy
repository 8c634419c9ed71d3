/**
  The skill registry: a name-to-definition map built from the skill files
  found under a directory. Reading and parsing a file (JSON or YAML) is
  outside the model: each file arrives already parsed into its fields, or
  as a failure to load.
 */
module Skills {
  import opened Values

  datatype SkillDefinition = SkillDefinition(
    name: string,
    description: string,
    parameters: Dict,
    handler: string,
    enabled: bool,
    metadata: Dict)

  /** The fields a parsed skill file supplies; `None` marks an absent field. */
  datatype SkillFields = SkillFields(
    name: Option<string>,
    description: Option<string>,
    parameters: Option<Dict>,
    handler: Option<string>,
    enabled: Option<bool>,
    metadata: Option<Dict>)

  datatype Extension = Json | Yaml | Yml | OtherExtension

  /** What opening and parsing one file gives: its fields, or the exception raised. */
  datatype FileContent = Parsed(fields: SkillFields) | Unloadable(error: string)

  datatype SkillFile = SkillFile(stem: string, extension: Extension, content: FileContent)

  datatype LoadResult = Loaded(skill: SkillDefinition) | LoadFailed(error: string)

  /** One tool entry of the list handed to the LLM. */
  datatype ToolSpec = ToolSpec(name: string, description: string, parameters: Dict)

  /** The registry's contents: the dictionary, with its keys in insertion order. */
  datatype Registry = Registry(order: seq<string>, skills: map<string, SkillDefinition>)

  const EmptyRegistry := Registry([], map[])

  function OrElse<T>(o: Option<T>, default: T): T {
    if o.Some? then o.value else default
  }

  /** `_load_skill_file`: every absent field takes its default; a file that cannot be read or parsed fails. */
  function LoadSkillFile(file: SkillFile): (r: LoadResult)
    ensures r.LoadFailed? <==> file.content.Unloadable?
    ensures r.Loaded? ==>
      var f := file.content.fields;
      && (f.name.None? ==> r.skill.name == file.stem)
      && (f.description.None? ==> r.skill.description == "")
      && (f.parameters.None? ==> r.skill.parameters == map[])
      && (f.handler.None? ==> r.skill.handler == "")
      && (f.enabled.None? ==> r.skill.enabled)
      && (f.metadata.None? ==> r.skill.metadata == map[])
      && (f.name.Some? ==> r.skill.name == f.name.value)
      && (f.description.Some? ==> r.skill.description == f.description.value)
      && (f.parameters.Some? ==> r.skill.parameters == f.parameters.value)
      && (f.handler.Some? ==> r.skill.handler == f.handler.value)
      && (f.enabled.Some? ==> r.skill.enabled == f.enabled.value)
      && (f.metadata.Some? ==> r.skill.metadata == f.metadata.value)
  {
    match file.content
    case Unloadable(e) => LoadFailed(e)
    case Parsed(f) =>
      Loaded(SkillDefinition(
        OrElse(f.name, file.stem),
        OrElse(f.description, ""),
        OrElse(f.parameters, map[]),
        OrElse(f.handler, ""),
        OrElse(f.enabled, true),
        OrElse(f.metadata, map[])))
  }

  function Rank(e: Extension): nat {
    match e
    case Json => 0
    case Yaml => 1
    case Yml => 2
    case OtherExtension => 3
  }

  function WithExtension(found: seq<SkillFile>, e: Extension): (r: seq<SkillFile>)
    ensures forall f :: f in r ==> f.extension == e
    ensures |r| <= |found|
  {
    if found == [] then []
    else (if found[0].extension == e then [found[0]] else []) + WithExtension(found[1..], e)
  }

  /** The enumeration order: every `.json` file, then every `.yaml` file, then every `.yml` file. */
  function ChainOrder(found: seq<SkillFile>): seq<SkillFile> {
    WithExtension(found, Json) + WithExtension(found, Yaml) + WithExtension(found, Yml)
  }

  lemma ChainOrderSorted(found: seq<SkillFile>)
    ensures forall i, j :: 0 <= i < j < |ChainOrder(found)| ==>
      Rank(ChainOrder(found)[i].extension) <= Rank(ChainOrder(found)[j].extension)
    ensures forall f :: f in ChainOrder(found) ==> f.extension != OtherExtension
  {
    var a, b, c := WithExtension(found, Json), WithExtension(found, Yaml), WithExtension(found, Yml);
    var r := ChainOrder(found);
    forall i, j | 0 <= i < j < |r| ensures Rank(r[i].extension) <= Rank(r[j].extension) {
      assert r[i] in a || r[i] in b || r[i] in c;
      assert r[j] in a || r[j] in b || r[j] in c;
      if i < |a| { assert r[i] == a[i]; }
      else if i < |a| + |b| { assert r[i] == b[i - |a|]; assert r[j] !in a; }
      else { assert r[i] == c[i - |a| - |b|]; assert r[j] == c[j - |a| - |b|]; }
    }
  }

  /** `self.skills[skill.name] = skill`: a new key goes last, an existing key keeps its place. */
  function Store(reg: Registry, skill: SkillDefinition): Registry {
    if skill.name in reg.skills then reg.(skills := reg.skills[skill.name := skill])
    else Registry(reg.order + [skill.name], reg.skills[skill.name := skill])
  }

  /** One iteration of the loading loop: only an enabled, successfully loaded definition is stored. */
  function LoadStep(reg: Registry, file: SkillFile): Registry {
    match LoadSkillFile(file)
    case Loaded(skill) => if skill.enabled then Store(reg, skill) else reg
    case LoadFailed(_) => reg
  }

  function LoadAll(reg: Registry, files: seq<SkillFile>): Registry
    decreases |files|
  {
    if files == [] then reg else LoadAll(LoadStep(reg, files[0]), files[1..])
  }

  /** `_load_skills` on a registry: nothing happens when the directory is missing. */
  function LoadFrom(reg: Registry, dirExists: bool, found: seq<SkillFile>): Registry {
    if dirExists then LoadAll(reg, ChainOrder(found)) else reg
  }

  /** Keys are unique, the key list and the map agree, and every stored skill is enabled and filed under its name. */
  ghost predicate WellFormed(reg: Registry) {
    && (forall i, j :: 0 <= i < j < |reg.order| ==> reg.order[i] != reg.order[j])
    && (forall k :: k in reg.skills <==> k in reg.order)
    && (forall k :: k in reg.skills ==> reg.skills[k].enabled && reg.skills[k].name == k)
  }

  lemma LoadStepWellFormed(reg: Registry, file: SkillFile)
    requires WellFormed(reg)
    ensures WellFormed(LoadStep(reg, file))
  {
  }

  lemma {:induction false} LoadAllWellFormed(reg: Registry, files: seq<SkillFile>)
    requires WellFormed(reg)
    ensures WellFormed(LoadAll(reg, files))
    decreases |files|
  {
    if files != [] {
      LoadStepWellFormed(reg, files[0]);
      LoadAllWellFormed(LoadStep(reg, files[0]), files[1..]);
    }
  }

  lemma {:induction false} LoadAllAppend(reg: Registry, a: seq<SkillFile>, b: seq<SkillFile>)
    ensures LoadAll(reg, a + b) == LoadAll(LoadAll(reg, a), b)
    decreases |a|
  {
    if a == [] {
      assert a + b == b;
    } else {
      assert (a + b)[0] == a[0] && (a + b)[1..] == a[1..] + b;
      LoadAllAppend(LoadStep(reg, a[0]), a[1..], b);
    }
  }

  /** A file that fails to load is skipped: the registry is as if it were not there. */
  lemma FailedFileSkipped(reg: Registry, files: seq<SkillFile>, i: nat)
    requires i < |files| && files[i].content.Unloadable?
    ensures LoadAll(reg, files) == LoadAll(reg, files[..i] + files[i + 1..])
  {
    assert files == files[..i] + ([files[i]] + files[i + 1..]);
    LoadAllAppend(reg, files[..i], [files[i]] + files[i + 1..]);
    LoadAllAppend(reg, files[..i], files[i + 1..]);
    var mid := LoadAll(reg, files[..i]);
    assert LoadAll(mid, [files[i]] + files[i + 1..]) == LoadAll(LoadStep(mid, files[i]), files[i + 1..]) by {
      assert ([files[i]] + files[i + 1..])[1..] == files[i + 1..];
    }
  }

  /** Reference definition: the last enabled definition named `k` among `files`, searched from the end. */
  function LastEnabled(files: seq<SkillFile>, k: string): Option<SkillDefinition>
    decreases |files|
  {
    if files == [] then None
    else
      var last := LoadSkillFile(files[|files| - 1]);
      if last.Loaded? && last.skill.enabled && last.skill.name == k then Some(last.skill)
      else LastEnabled(files[..|files| - 1], k)
  }

  /** A later enabled definition with the same name overwrites an earlier one; a disabled one never removes it. */
  lemma {:induction false} LastEnabledWins(reg: Registry, files: seq<SkillFile>, k: string)
    ensures k in LoadAll(reg, files).skills <==> LastEnabled(files, k).Some? || k in reg.skills
    ensures LastEnabled(files, k).Some? ==> LoadAll(reg, files).skills[k] == LastEnabled(files, k).value
    ensures LastEnabled(files, k).None? && k in reg.skills ==> LoadAll(reg, files).skills[k] == reg.skills[k]
    decreases |files|
  {
    if files != [] {
      var init, last := files[..|files| - 1], files[|files| - 1];
      assert files == init + [last];
      LoadAllAppend(reg, init, [last]);
      LastEnabledWins(reg, init, k);
      var mid := LoadAll(reg, init);
      assert LoadAll(mid, [last]) == LoadStep(mid, last) by {
        assert [last][1..] == [];
      }
    }
  }

  class SkillManager {
    var order: seq<string>
    var skills: map<string, SkillDefinition>

    ghost function Current(): Registry
      reads this
    {
      Registry(order, skills)
    }

    ghost predicate Valid()
      reads this
    {
      WellFormed(Current())
    }

    constructor (dirExists: bool, found: seq<SkillFile>)
      ensures Valid()
      ensures Current() == LoadFrom(EmptyRegistry, dirExists, found)
    {
      order := [];
      skills := map[];
      new;
      LoadSkills(dirExists, found);
    }

    /** `_load_skills`: enumerate the files in chain order and store each enabled definition. */
    method LoadSkills(dirExists: bool, found: seq<SkillFile>)
      requires Valid()
      modifies this
      ensures Valid()
      ensures Current() == LoadFrom(old(Current()), dirExists, found)
    {
      if !dirExists {
        return;
      }
      var files := ChainOrder(found);
      var i := 0;
      while i < |files|
        invariant 0 <= i <= |files|
        invariant Valid()
        invariant LoadAll(Current(), files[i..]) == LoadAll(old(Current()), files)
      {
        LoadStepWellFormed(Current(), files[i]);
        var loaded := LoadSkillFile(files[i]);
        if loaded.Loaded? && loaded.skill.enabled {
          var skill := loaded.skill;
          if skill.name !in skills {
            order := order + [skill.name];
          }
          skills := skills[skill.name := skill];
        }
        assert files[i..][1..] == files[i + 1..];
        i := i + 1;
      }
    }

    function GetSkill(name: string): (r: Option<SkillDefinition>)
      reads this
      ensures r.Some? <==> name in skills
      ensures r.Some? ==> r.value == skills[name]
    {
      if name in skills then Some(skills[name]) else None
    }

    /** `list(self.skills.values())`, in insertion order. */
    function ListSkills(): (r: seq<SkillDefinition>)
      reads this
      requires Valid()
      ensures |r| == |order|
      ensures forall i :: 0 <= i < |r| ==> order[i] in skills && r[i] == skills[order[i]]
      ensures forall s :: s in r ==> s.enabled
    {
      seq(|order|, i requires 0 <= i < |order| && Valid() reads this => skills[order[i]])
    }

    /** `reload`: clear, then load again; the result does not depend on the previous contents. */
    method Reload(dirExists: bool, found: seq<SkillFile>)
      requires Valid()
      modifies this
      ensures Valid()
      ensures Current() == LoadFrom(EmptyRegistry, dirExists, found)
    {
      order := [];
      skills := map[];
      LoadSkills(dirExists, found);
    }

    /** The tool list handed to the LLM: one entry per stored skill, in insertion order. */
    function GetSkillsForLlm(): (r: seq<ToolSpec>)
      reads this
      requires Valid()
      ensures |r| == |order|
      ensures forall i :: 0 <= i < |r| ==>
        (order[i] in skills && r[i] == ToolSpec(order[i], skills[order[i]].description, skills[order[i]].parameters))
    {
      EnabledSpecs(ListSkills())
    }
  }

  /** The comprehension `[{name, description, parameters} for skill in ... if skill.enabled]`. */
  function EnabledSpecs(defs: seq<SkillDefinition>): (r: seq<ToolSpec>)
    ensures |r| <= |defs|
    ensures (forall s :: s in defs ==> s.enabled) ==>
      (|r| == |defs| && forall i :: 0 <= i < |defs| ==> r[i] == ToolSpec(defs[i].name, defs[i].description, defs[i].parameters))
  {
    if defs == [] then []
    else
      (if defs[0].enabled then [ToolSpec(defs[0].name, defs[0].description, defs[0].parameters)] else [])
      + EnabledSpecs(defs[1..])
  }
}
