/**
 * Resource configuration: the merge of a niceman.cfg section with the
 * caller's overrides, the dictionary-like access to the result, the
 * module and class names a resource type maps to, and the listing of the
 * resources a configuration defines.
 *
 * Parsing the configuration files and importing the resource's module are
 * outside the model: a configuration arrives as its list of sections.
 */
module ResourceBase {
  import opened Wrappers
  import opened Strings

  /** A configuration value: a string, or Python's None. */
  datatype Value = Null | Str(s: string)

  /** Python truthiness of a value: a non-empty string. */
  predicate Truthy(v: Value)
  {
    v.Str? && v.s != ""
  }

  datatype Section = Section(name: string, items: map<string, Value>)

  /** The parsed configuration files: their sections, in file order. */
  datatype ConfigManager = ConfigManager(sections: seq<Section>)

  /** No two sections share a name, as ConfigParser's dictionary of sections keeps them. */
  predicate DistinctNames(sections: seq<Section>)
  {
    forall i, j :: 0 <= i < j < |sections| ==> sections[i].name != sections[j].name
  }

  /**
   * Reads one given configuration file, or the default locations for None.
   * Its sections have distinct names, so looking a section up and listing
   * the sections see the same one.
   */
  type Loader = load: Option<string> -> ConfigManager | forall p :: DistinctNames(load(p).sections)
    witness (p: Option<string>) => ConfigManager([])

  datatype Error =
    | MissingConfigFileError(msg: string)
    | NoSectionError(section: string)
    | KeyError(key: string)
    | MissingConfigError(msg: string)
    | AttributeError(msg: string)

  const IdKey := "resource_config_id"
  const PathKey := "config_path"

  // ---------------------------------------------------------------------
  // ResourceConfig construction
  // ---------------------------------------------------------------------

  /** `if not config_path and 'config_path' in config: config_path = config['config_path']`. */
  function ChosenPath(config: map<string, Value>, configPath: Value): (p: Value)
    ensures Truthy(configPath) ==> p == configPath
    ensures !Truthy(configPath) && PathKey in config ==> p == config[PathKey]
    ensures !Truthy(configPath) && PathKey !in config ==> p == configPath
  {
    if !Truthy(configPath) && PathKey in config then config[PathKey] else configPath
  }

  /** Which files the ConfigManager reads: the given one when the path is truthy, else the defaults. */
  function ConfigFiles(p: Value): (f: Option<string>)
    ensures f.Some? <==> Truthy(p)
    ensures f.Some? ==> f.value == p.s
  {
    if Truthy(p) then Some(p.s) else None
  }

  /** `cm.items(name)`: the items of the first section with that name. */
  function FindSection(sections: seq<Section>, name: string): (r: Option<map<string, Value>>)
    ensures r.None? <==> forall i :: 0 <= i < |sections| ==> sections[i].name != name
    ensures r.Some? ==> exists i :: 0 <= i < |sections| && sections[i].name == name && sections[i].items == r.value
    decreases |sections|
  {
    if |sections| == 0 then None
    else if sections[0].name == name then Some(sections[0].items)
    else
      var r := FindSection(sections[1..], name);
      assert r.Some? ==> exists i :: 0 < i < |sections| && sections[i].name == name && sections[i].items == r.value by {
        if r.Some? {
          var i :| 0 <= i < |sections[1..]| && sections[1..][i].name == name && sections[1..][i].items == r.value;
          assert sections[i + 1] == sections[1..][i];
        }
      }
      assert r.None? ==> forall i :: 0 < i < |sections| ==> sections[i].name != name by {
        if r.None? {
          forall i | 0 < i < |sections| ensures sections[i].name != name {
            assert sections[i] == sections[1..][i - 1];
          }
        }
      }
      r
  }

  /** With distinct names, the section found by name is the only one of that name. */
  lemma FoundSectionIsTheSection(sections: seq<Section>, i: int)
    requires DistinctNames(sections) && 0 <= i < |sections|
    ensures FindSection(sections, sections[i].name) == Some(sections[i].items)
  {
    var r := FindSection(sections, sections[i].name);
    var j :| 0 <= j < |sections| && sections[j].name == sections[i].name && sections[j].items == r.value;
    assert j == i;
  }

  /**
   * The merged configuration: section items overridden by the caller's
   * config, then the identifier and the configuration path recorded.
   */
  function Merge(items: map<string, Value>, config: map<string, Value>, id: string, path: Value): (m: map<string, Value>)
    ensures m.Keys == items.Keys + config.Keys + {IdKey, PathKey}
    ensures m[IdKey] == Str(id) && m[PathKey] == path
    ensures forall k :: k in m && k != IdKey && k != PathKey ==>
              m[k] == if k in config then config[k] else items[k]
  {
    (items + config)[IdKey := Str(id)][PathKey := path]
  }

  /** `ResourceConfig(resource_config_id, config, config_path)`, as the map it ends up holding. */
  function InitialConfig(id: string, config: map<string, Value>, configPath: Value, load: Loader): (r: Result<map<string, Value>, Error>)
    ensures var path := ChosenPath(config, configPath);
            var cm := load(ConfigFiles(path));
            && (|cm.sections| == 1 ==> r == Failure(MissingConfigFileError("Unable to locate a niceman.cfg file.")))
            && (|cm.sections| != 1 && FindSection(cm.sections, "resource " + id).None? ==>
                  r == Failure(NoSectionError("resource " + id)))
            && (r.Success? <==> |cm.sections| != 1 && FindSection(cm.sections, "resource " + id).Some?)
            && (r.Success? ==> r.value == Merge(FindSection(cm.sections, "resource " + id).value, config, id, path))
  {
    var path := ChosenPath(config, configPath);
    var cm := load(ConfigFiles(path));
    if |cm.sections| == 1 then Failure(MissingConfigFileError("Unable to locate a niceman.cfg file."))
    else
      var items := FindSection(cm.sections, "resource " + id);
      if items.None? then Failure(NoSectionError("resource " + id))
      else Success(Merge(items.value, config, id, path))
  }

  /** A freshly built configuration answers every access, and knows its identifier. */
  lemma InitialConfigAccessible(id: string, config: map<string, Value>, configPath: Value, load: Loader)
    requires InitialConfig(id, config, configPath, load).Success?
    ensures var c := InitialConfig(id, config, configPath, load).value;
            GetItem(c, IdKey) == Success(Str(id))
            && (forall k :: k in config && k != IdKey && k != PathKey ==> GetItem(c, k) == Success(config[k]))
  {
  }

  // ---------------------------------------------------------------------
  // Item access: the debug message of each accessor reads the identifier
  // ---------------------------------------------------------------------

  /** `__getitem__`. */
  function GetItem(c: map<string, Value>, key: string): (r: Result<Value, Error>)
    ensures r.Success? <==> IdKey in c && key in c
    ensures r.Success? ==> r.value == c[key]
    ensures IdKey !in c ==> r == Failure(KeyError(IdKey))
    ensures IdKey in c && key !in c ==> r == Failure(KeyError(key))
  {
    if IdKey !in c then Failure(KeyError(IdKey))
    else if key !in c then Failure(KeyError(key))
    else Success(c[key])
  }

  /** `__setitem__`, as the map it leaves. */
  function SetItem(c: map<string, Value>, key: string, v: Value): (r: Result<map<string, Value>, Error>)
    ensures r.Failure? <==> IdKey !in c
    ensures r.Failure? ==> r.error == KeyError(IdKey)
    ensures r.Success? ==> r.value.Keys == c.Keys + {key} && r.value[key] == v
    ensures r.Success? ==> forall k :: k in c && k != key ==> r.value[k] == c[k]
  {
    if IdKey !in c then Failure(KeyError(IdKey)) else Success(c[key := v])
  }

  /** `__delitem__`, as the map it leaves. */
  function DelItem(c: map<string, Value>, key: string): (r: Result<map<string, Value>, Error>)
    ensures r.Success? <==> IdKey in c && key in c
    ensures IdKey !in c ==> r == Failure(KeyError(IdKey))
    ensures IdKey in c && key !in c ==> r == Failure(KeyError(key))
    ensures r.Success? ==> r.value.Keys == c.Keys - {key}
    ensures r.Success? ==> forall k :: k in r.value ==> r.value[k] == c[k]
  {
    if IdKey !in c then Failure(KeyError(IdKey))
    else if key !in c then Failure(KeyError(key))
    else Success(c - {key})
  }

  /** Set-then-get returns the stored value and leaves every other key's answer alone. */
  lemma SetThenGet(c: map<string, Value>, key: string, v: Value, other: string)
    requires SetItem(c, key, v).Success?
    ensures var c' := SetItem(c, key, v).value;
            GetItem(c', key) == Success(v)
            && (other != key ==> GetItem(c', other) == GetItem(c, other))
            && key in c'
  {
  }

  /** Deleting removes that key only; the other keys still answer as before. */
  lemma DelOnlyThatKey(c: map<string, Value>, key: string, other: string)
    requires DelItem(c, key).Success? && key != IdKey && other != key
    ensures var c' := DelItem(c, key).value;
            key !in c' && GetItem(c', key) == Failure(KeyError(key))
            && GetItem(c', other) == GetItem(c, other)
  {
  }

  /** `__len__` counts keys: a set adds one exactly for a new key, a delete removes one. */
  lemma LenAfterUpdate(c: map<string, Value>, key: string, v: Value)
    ensures SetItem(c, key, v).Success? ==>
              |SetItem(c, key, v).value| == |c| + (if key in c then 0 else 1)
    ensures DelItem(c, key).Success? ==> |DelItem(c, key).value| == |c| - 1
  {
    if SetItem(c, key, v).Success? && key !in c {
      assert SetItem(c, key, v).value.Keys == c.Keys + {key};
    }
    if DelItem(c, key).Success? {
      assert DelItem(c, key).value.Keys == c.Keys - {key};
    }
  }

  /**
   * Once the identifier itself is deleted, every get, set and delete
   * raises KeyError for it, while membership tests still answer.
   */
  lemma DeletedIdBlocksAccess(c: map<string, Value>, key: string, v: Value)
    requires DelItem(c, IdKey).Success?
    ensures var c' := DelItem(c, IdKey).value;
            GetItem(c', key) == Failure(KeyError(IdKey))
            && SetItem(c', key, v) == Failure(KeyError(IdKey))
            && DelItem(c', key) == Failure(KeyError(IdKey))
            && (key in c' <==> key in c && key != IdKey)
  {
  }

  /** A non-empty configuration contains some key. */
  lemma NonEmptyContains(c: ResourceConfig)
    requires |c.config| > 0
    ensures exists k :: c.Contains(k)
  {
    var k :| k in c.config;
    assert c.Contains(k);
  }

  /** `ResourceConfig`: the configuration map, updated in place by its accessors. */
  class ResourceConfig {
    var config: map<string, Value>

    constructor (config: map<string, Value>)
      ensures this.config == config
    {
      this.config := config;
    }

    /** `ResourceConfig.__init__`: pick the file, find the section, merge the overrides in place. */
    static method New(id: string, config: map<string, Value>, configPath: Value, load: Loader)
      returns (r: Result<ResourceConfig, Error>)
      ensures var expected := InitialConfig(id, config, configPath, load);
              (r.Success? <==> expected.Success?)
              && (r.Failure? ==> r.error == expected.error)
              && (r.Success? ==> fresh(r.value) && r.value.config == expected.value)
    {
      var path := configPath;
      if !Truthy(path) && PathKey in config {
        path := config[PathKey];
      }
      var cm := load(ConfigFiles(path));
      if |cm.sections| == 1 {
        return Failure(MissingConfigFileError("Unable to locate a niceman.cfg file."));
      }
      var items := FindSection(cm.sections, "resource " + id);
      if items.None? {
        return Failure(NoSectionError("resource " + id));
      }
      var d := items.value;
      d := d + config;
      d := d[IdKey := Str(id)];
      d := d[PathKey := path];
      var rc := new ResourceConfig(d);
      r := Success(rc);
    }

    /** `__len__`, which needs no resource_config_id: zero exactly when no key is contained. */
    function Len(): (n: nat)
      reads this
      ensures n == 0 <==> forall k :: !Contains(k)
    {
      if |config| > 0 then NonEmptyContains(this); |config| else |config|
    }

    /** `__getitem__`: the stored value, once the debug line has read resource_config_id. */
    function Get(key: string): (r: Result<Value, Error>)
      reads this
      ensures r.Success? <==> IdKey in config && key in config
      ensures r.Success? ==> r.value == config[key]
      ensures IdKey !in config ==> r == Failure(KeyError(IdKey))
      ensures IdKey in config && key !in config ==> r == Failure(KeyError(key))
    {
      GetItem(config, key)
    }

    /** `__contains__`, which logs nothing: a contained key is readable exactly while resource_config_id is. */
    predicate Contains(key: string)
      reads this
      ensures Contains(key) ==> (Get(key).Success? <==> IdKey in config)
      ensures !Contains(key) ==> Get(key).Failure?
    {
      key in config
    }

    /** `__setitem__`. */
    method Set(key: string, value: Value) returns (r: Result<(), Error>)
      modifies this
      ensures SetItem(old(config), key, value).Success? ==>
                r == Success(()) && config == SetItem(old(config), key, value).value
      ensures SetItem(old(config), key, value).Failure? ==>
                r == Failure(KeyError(IdKey)) && config == old(config)
      ensures r.Success? ==> Get(key) == Success(value) && Contains(key)
    {
      if IdKey !in config {
        return Failure(KeyError(IdKey));
      }
      config := config[key := value];
      r := Success(());
    }

    /** `__delitem__`. */
    method Delete(key: string) returns (r: Result<(), Error>)
      modifies this
      ensures DelItem(old(config), key).Success? ==>
                r == Success(()) && config == DelItem(old(config), key).value
      ensures DelItem(old(config), key).Failure? ==>
                r == Failure(DelItem(old(config), key).error) && config == old(config)
      ensures r.Success? ==> !Contains(key) && Len() == old(Len()) - 1
    {
      if IdKey !in config {
        return Failure(KeyError(IdKey));
      }
      if key !in config {
        return Failure(KeyError(key));
      }
      config := config - {key};
      LenAfterUpdate(old(config), key, Null);
      r := Success(());
    }
  }

  /** `Resource`: its accessors go through the configuration object it was built with. */
  class Resource {
    const config: ResourceConfig

    constructor (config: ResourceConfig)
      ensures this.config == config
    {
      this.config := config;
    }

    /** `get_config`: goes through `__getitem__`, so resource_config_id is needed first. */
    function GetConfig(key: string): (r: Result<Value, Error>)
      reads config
      ensures r.Success? <==> IdKey in config.config && key in config.config
      ensures r.Success? ==> r.value == config.config[key]
      ensures IdKey !in config.config ==> r == Failure(KeyError(IdKey))
      ensures IdKey in config.config && key !in config.config ==> r == Failure(KeyError(key))
    {
      config.Get(key)
    }

    /** `has_config`: goes through `__contains__`, so it answers even without resource_config_id. */
    predicate HasConfig(key: string)
      reads config
      ensures HasConfig(key) <==> key in config.config
      ensures HasConfig(key) ==> (GetConfig(key).Success? <==> IdKey in config.config)
    {
      config.Contains(key)
    }

    /** `set_config`: afterwards `get_config` returns the value and `has_config` holds. */
    method SetConfig(key: string, value: Value) returns (r: Result<(), Error>)
      modifies config
      ensures SetItem(old(config.config), key, value).Success? ==>
                r == Success(()) && config.config == SetItem(old(config.config), key, value).value
      ensures SetItem(old(config.config), key, value).Failure? ==>
                r == Failure(KeyError(IdKey)) && config.config == old(config.config)
      ensures r.Success? ==> GetConfig(key) == Success(value) && HasConfig(key)
    {
      r := config.Set(key, value);
    }
  }

  // ---------------------------------------------------------------------
  // Resource.factory: the names a resource type maps to
  // ---------------------------------------------------------------------

  /** `'_'.join(t.split('-'))`. */
  function ModuleName(t: string): string
  {
    Join("_", Split(t, '-'))
  }

  /** `''.join([token.capitalize() for token in t.split('-')])`. */
  function ClassName(t: string): string
  {
    Join("", CapitalizeAll(Split(t, '-')))
  }

  /** The module name is the type with every "-" turned into "_". */
  lemma ModuleNameSubstitutes(t: string)
    ensures ModuleName(t) == Substitute(t, '-', "_")
  {
    JoinSplit(t, '-', "_");
  }

  /** Up to letter case, the class name is the type with the hyphens dropped. */
  lemma ClassNameDropsHyphens(t: string)
    ensures Lower(ClassName(t)) == Lower(Remove(t, '-'))
    ensures |ClassName(t)| == |Remove(t, '-')|
  {
    var parts := Split(t, '-');
    LowerConcat(CapitalizeAll(parts));
    assert LowerAll(CapitalizeAll(parts)) == LowerAll(parts) by {
      forall i | 0 <= i < |parts| ensures LowerAll(CapitalizeAll(parts))[i] == LowerAll(parts)[i] {
        LowerCapitalize(parts[i]);
      }
    }
    LowerConcat(parts);
    JoinSplit(t, '-', "");
  }

  /**
   * Reference definition of the class name, character by character: every "-"
   * is dropped, a character at the start or right after a "-" is upper-cased,
   * and every other character is lower-cased.
   */
  function CamelCase(t: string, atTokenStart: bool): string
    decreases |t|
  {
    if |t| == 0 then ""
    else if t[0] == '-' then CamelCase(t[1..], true)
    else [if atTokenStart then UpperChar(t[0]) else LowerChar(t[0])] + CamelCase(t[1..], false)
  }

  /** The capitalized tokens after the first one, joined. */
  function LaterTokens(t: string): string
  {
    Join("", CapitalizeAll(Split(t, '-')[1..]))
  }

  lemma JoinNothingCons(x: string, parts: seq<string>)
    ensures Join("", [x] + parts) == x + Join("", parts)
  {
    if |parts| == 0 {
      assert [x] + parts == [x];
    } else {
      JoinCons("", x, parts);
    }
  }

  lemma CapitalizeAllCons(parts: seq<string>)
    requires |parts| > 0
    ensures CapitalizeAll(parts) == [Capitalize(parts[0])] + CapitalizeAll(parts[1..])
  {
  }

  /** Scanning a type: inside its first token, or at its start. */
  lemma {:induction false} CamelCaseTokens(t: string)
    ensures CamelCase(t, false) == Lower(Split(t, '-')[0]) + LaterTokens(t)
    ensures CamelCase(t, true) == Capitalize(Split(t, '-')[0]) + LaterTokens(t)
    decreases |t|
  {
    if |t| == 0 {
      assert Split(t, '-')[1..] == [];
    } else {
      CamelCaseTokens(t[1..]);
      if t[0] == '-' {
        CamelHyphenStep(t);
      } else {
        CamelLetterStep(t);
      }
    }
  }

  /** A "-" ends the first token: the rest is scanned from a token start. */
  lemma CamelHyphenStep(t: string)
    requires |t| > 0 && t[0] == '-'
    requires CamelCase(t[1..], true) == Capitalize(Split(t[1..], '-')[0]) + LaterTokens(t[1..])
    ensures CamelCase(t, false) == Lower(Split(t, '-')[0]) + LaterTokens(t)
    ensures CamelCase(t, true) == Capitalize(Split(t, '-')[0]) + LaterTokens(t)
  {
    var q := t[1..];
    var sq := Split(q, '-');
    assert t == [t[0]] + q;
    SplitCons(t[0], q, '-');
    assert Split(t, '-')[0] == "" && Split(t, '-')[1..] == sq;
    CapitalizeAllCons(sq);
    JoinNothingCons(Capitalize(sq[0]), CapitalizeAll(sq[1..]));
    assert LaterTokens(t) == CamelCase(q, true);
  }

  /** Any other character joins the first token, upper-cased only at the start. */
  lemma CamelLetterStep(t: string)
    requires |t| > 0 && t[0] != '-'
    requires CamelCase(t[1..], false) == Lower(Split(t[1..], '-')[0]) + LaterTokens(t[1..])
    ensures CamelCase(t, false) == Lower(Split(t, '-')[0]) + LaterTokens(t)
    ensures CamelCase(t, true) == Capitalize(Split(t, '-')[0]) + LaterTokens(t)
  {
    var q := t[1..];
    var first := Split(q, '-')[0];
    var later := LaterTokens(q);
    LetterSplit(t);
    calc {
      CamelCase(t, false);
      [LowerChar(t[0])] + (Lower(first) + later);
      { PrependAssoc(LowerChar(t[0]), Lower(first), later); }
      ([LowerChar(t[0])] + Lower(first)) + later;
      { LowerCons(t[0], first); }
      Lower([t[0]] + first) + later;
    }
    calc {
      CamelCase(t, true);
      [UpperChar(t[0])] + (Lower(first) + later);
      { PrependAssoc(UpperChar(t[0]), Lower(first), later); }
      ([UpperChar(t[0])] + Lower(first)) + later;
      { CapitalizeCons(t[0], first); }
      Capitalize([t[0]] + first) + later;
    }
  }

  /** A character other than "-" extends the first token and leaves the later ones alone. */
  lemma LetterSplit(t: string)
    requires |t| > 0 && t[0] != '-'
    ensures Split(t, '-')[0] == [t[0]] + Split(t[1..], '-')[0]
    ensures LaterTokens(t) == LaterTokens(t[1..])
  {
    assert t == [t[0]] + t[1..];
    SplitCons(t[0], t[1..], '-');
  }

  lemma PrependAssoc(c: char, x: string, y: string)
    ensures [c] + (x + y) == ([c] + x) + y
  {
  }

  /** The class name is the type scanned character by character as `CamelCase` describes. */
  lemma ClassNameCamelCase(t: string)
    ensures ClassName(t) == CamelCase(t, true)
  {
    var parts := Split(t, '-');
    CamelCaseTokens(t);
    CapitalizeAllCons(parts);
    JoinNothingCons(Capitalize(parts[0]), CapitalizeAll(parts[1..]));
  }

  /**
   * The name-deriving part of `Resource.factory`: the module and class
   * names for the configuration's resource type.
   */
  function FactoryNames(c: map<string, Value>): (r: Result<(string, string), Error>)
    ensures "resource_type" !in c ==>
              r == Failure(MissingConfigError("Resource 'resource_type' parameter missing for resource."))
    ensures "resource_type" in c && IdKey !in c ==> r == Failure(KeyError(IdKey))
    ensures "resource_type" in c && IdKey in c && c["resource_type"].Null? ==> r.Failure? && r.error.AttributeError?
    ensures r.Success? <==> "resource_type" in c && IdKey in c && c["resource_type"].Str?
    ensures r.Success? ==> r.value == (ModuleName(c["resource_type"].s), ClassName(c["resource_type"].s))
  {
    if "resource_type" !in c then
      Failure(MissingConfigError("Resource 'resource_type' parameter missing for resource."))
    else
      var t := GetItem(c, "resource_type");
      if t.Failure? then Failure(t.error)
      else if t.value.Null? then Failure(AttributeError("'NoneType' object has no attribute 'split'"))
      else Success((ModuleName(t.value.s), ClassName(t.value.s)))
  }

  // ---------------------------------------------------------------------
  // Resource.get_resource_list
  // ---------------------------------------------------------------------

  predicate IsResourceSection(name: string)
  {
    StartsWith(name, "resource ")
  }

  /** `name.split(' ')[-1]`. */
  function ResourceId(name: string): (id: string)
    ensures ' ' !in id
  {
    SplitPiecesFree(name, ' ');
    Last(Split(name, ' '))
  }

  /** The id of "resource <id>" is <id> when the id holds no space. */
  lemma ResourceIdOf(id: string)
    requires ' ' !in id
    ensures IsResourceSection("resource " + id) && ResourceId("resource " + id) == id
  {
    assert "resource " + id == "resource" + [' '] + id;
    LastPieceAfter("resource", ' ', id);
  }

  /** The entry a resource section contributes: its items with `resource_id` set. */
  function Entry(s: Section): map<string, Value>
  {
    s.items["resource_id" := Str(ResourceId(s.name))]
  }

  /** Reference definition of the listing: sections taken in order, later ones overwriting. */
  function ResourcesOf(ss: seq<Section>): map<string, map<string, Value>>
    decreases |ss|
  {
    if |ss| == 0 then map[]
    else
      var prev := ResourcesOf(ss[..|ss| - 1]);
      var s := ss[|ss| - 1];
      if IsResourceSection(s.name) then prev[ResourceId(s.name) := Entry(s)] else prev
  }

  /** `get_resource_list(config_path)`, with the configuration read by `load`. */
  method GetResourceList(configPath: Value, load: Loader) returns (resources: map<string, map<string, Value>>)
    ensures resources == ResourcesOf(load(ConfigFiles(configPath)).sections)
  {
    var cm := load(ConfigFiles(configPath));
    resources := map[];
    var i := 0;
    while i < |cm.sections|
      invariant 0 <= i <= |cm.sections|
      invariant resources == ResourcesOf(cm.sections[..i])
    {
      var section := cm.sections[i];
      if IsResourceSection(section.name) {
        var id := ResourceId(section.name);
        resources := resources[id := section.items["resource_id" := Str(id)]];
      }
      assert cm.sections[..i + 1][..i] == cm.sections[..i];
      i := i + 1;
    }
    assert cm.sections[..|cm.sections|] == cm.sections;
  }

  /** The listing's keys are exactly the ids of the resource sections. */
  lemma {:induction false} ResourcesKeys(ss: seq<Section>, k: string)
    ensures k in ResourcesOf(ss) <==>
              exists j :: 0 <= j < |ss| && IsResourceSection(ss[j].name) && ResourceId(ss[j].name) == k
    decreases |ss|
  {
    if |ss| > 0 {
      var init := ss[..|ss| - 1];
      ResourcesKeys(init, k);
      if k in ResourcesOf(init) {
        var j :| 0 <= j < |init| && IsResourceSection(init[j].name) && ResourceId(init[j].name) == k;
        assert ss[j] == init[j];
      }
      if exists j :: 0 <= j < |ss| && IsResourceSection(ss[j].name) && ResourceId(ss[j].name) == k {
        var j :| 0 <= j < |ss| && IsResourceSection(ss[j].name) && ResourceId(ss[j].name) == k;
        if j < |ss| - 1 {
          assert init[j] == ss[j];
        }
      }
    }
  }

  /** Each id holds the entry of the last section with that id: later sections overwrite earlier ones. */
  lemma {:induction false} ResourcesLastWins(ss: seq<Section>, j: int)
    requires 0 <= j < |ss| && IsResourceSection(ss[j].name)
    requires forall j' :: j < j' < |ss| && IsResourceSection(ss[j'].name) ==> ResourceId(ss[j'].name) != ResourceId(ss[j].name)
    ensures ResourceId(ss[j].name) in ResourcesOf(ss)
    ensures ResourcesOf(ss)[ResourceId(ss[j].name)] == Entry(ss[j])
    decreases |ss|
  {
    if j < |ss| - 1 {
      var init := ss[..|ss| - 1];
      assert init[j] == ss[j];
      forall j' | j < j' < |init| && IsResourceSection(init[j'].name)
        ensures ResourceId(init[j'].name) != ResourceId(init[j].name)
      {
        assert init[j'] == ss[j'];
      }
      ResourcesLastWins(init, j);
    }
  }

  /** Every listed entry records its own id under `resource_id`. */
  lemma {:induction false} ResourcesRecordTheirId(ss: seq<Section>)
    ensures forall k :: k in ResourcesOf(ss) ==>
              "resource_id" in ResourcesOf(ss)[k] && ResourcesOf(ss)[k]["resource_id"] == Str(k)
    decreases |ss|
  {
    if |ss| > 0 {
      ResourcesRecordTheirId(ss[..|ss| - 1]);
    }
  }
}
