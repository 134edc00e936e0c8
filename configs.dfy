/** The experiment configuration of AEFM/configs/__init__.py: the file paths, the
    nodes grouped by role, the pod spec, the test-case section and any other
    top-level setting of the loaded YAML document. Reading the file is outside
    the model: the loader receives the loaded document. */
module Configuration {
  import opened Wrappers
  import opened OrderedMaps
  import opened YamlDocs
  import opened Nodes
  import PodSpecs

  /** `for x in d` over a loaded YAML value: a list's items, a mapping's keys or a
      string's characters; anything else is not iterable. */
  function Iterate(d: Doc): (r: Result<seq<Doc>>)
    ensures r.Err? <==> !(d.List? || d.Map? || d.Str?)
    ensures r.Err? ==> r.error == TypeError
    ensures d.List? ==> r == Ok(d.items)
    ensures d.Map? ==> |r.value| == |d.entries| && forall i :: 0 <= i < |d.entries| ==> r.value[i] == Str(d.entries[i].0)
  {
    match d
    case List(items) => Ok(items)
    case Map(entries) => Ok(seq(|entries|, i requires 0 <= i < |entries| => Str(entries[i].0)))
    case Str(s) => Ok(seq(|s|, i requires 0 <= i < |s| => Str([s[i]])))
    case _ => Err(TypeError)
  }

  /** The pairs `d[key]` read by `for key in d`: a mapping's entries. An empty list
      or string yields nothing; any other value fails at the loop or at `d[key]`. */
  function Entries(d: Doc): (r: Result<OMap<string, Doc>>)
    ensures r.Ok? <==> d.Map? || d == List([]) || d == Str([])
    ensures r.Err? ==> r.error == TypeError
    ensures d.Map? ==> r == Ok(d.entries)
  {
    if d.Map? then Ok(d.entries)
    else if d == List([]) || d == Str([]) then Ok([])
    else Err(TypeError)
  }

  /** The attributes of a new `FilePaths`: the three known paths, empty. */
  function DefaultPaths(): map<string, Doc>
  {
    map["collector_data" := Str(""), "log" := Str(""), "yaml_repo" := Str("")]
  }

  /** The attributes after `load_from_dict` set each key of `entries` in turn. */
  function PathAttrs(entries: OMap<string, Doc>): map<string, Doc>
  {
    if |entries| == 0 then DefaultPaths()
    else PathAttrs(entries[..|entries| - 1])[entries[|entries| - 1].0 := entries[|entries| - 1].1]
  }

  /** Every key given is an attribute with its value; a known path not given stays
      `""`; nothing else is an attribute. */
  lemma {:induction false} PathAttrsGet(entries: OMap<string, Doc>, key: string)
    requires NoDupKeys(entries)
    ensures key in PathAttrs(entries) <==> Get(entries, key).Some? || key in DefaultPaths()
    ensures Get(entries, key).Some? ==> PathAttrs(entries)[key] == Get(entries, key).value
    ensures Get(entries, key).None? && key in DefaultPaths() ==> PathAttrs(entries)[key] == Str("")
  {
    if |entries| > 0 {
      var n := |entries| - 1;
      var front := entries[..n];
      assert entries == front + [entries[n]];
      PathAttrsGet(front, key);
      GetSnoc(front, entries[n].0, entries[n].1, key);
      FreshKey(entries, n);
    }
  }

  /** `Configs.FilePaths`: named paths stored as attributes. It is filled once,
      by `load_from_dict`, and not changed afterwards. */
  datatype FilePaths = FilePaths(attrs: map<string, Doc>)

  /** `load_from_dict`: every key of `data` becomes an attribute holding its
      value; the three known keys only differ in having a default. */
  method LoadFilePaths(data: Doc) returns (r: Result<FilePaths>)
    ensures r.Ok? <==> Entries(data).Ok?
    ensures r.Err? ==> r.error == TypeError
    ensures r.Ok? ==> r.value.attrs == PathAttrs(Entries(data).value)
  {
    var entries := Entries(data);
    if entries.Err? {
      return Err(TypeError);
    }
    var paths := FilePaths(DefaultPaths());
    var kvs := entries.value;
    for i := 0 to |kvs|
      invariant paths.attrs == PathAttrs(kvs[..i])
    {
      assert kvs[..i + 1][..i] == kvs[..i];
      var (key, value) := kvs[i];
      if key == "collector_data" {
        paths := paths.(attrs := paths.attrs["collector_data" := value]);
      } else if key == "log" {
        paths := paths.(attrs := paths.attrs["log" := value]);
      } else if key == "yaml_repo" {
        paths := paths.(attrs := paths.attrs["yaml_repo" := value]);
      } else {
        paths := paths.(attrs := paths.attrs[key := value]);
      }
    }
    assert kvs[..|kvs|] == kvs;
    return Ok(paths);
  }

  /** `FilePaths.__getitem__`: an attribute, or AttributeError. */
  function PathItem(paths: FilePaths, key: string): (r: Result<Doc>)
    ensures r.Ok? <==> key in paths.attrs
    ensures r.Ok? ==> r.value == paths.attrs[key]
    ensures r.Err? ==> r.error == AttributeError
  {
    if key in paths.attrs then Ok(paths.attrs[key]) else Err(AttributeError)
  }

  /** Reading back a loaded path: the value given for it, `""` for a known path
      not given, AttributeError for anything else. */
  lemma ReadPath(data: Doc, key: string)
    requires data.Map? && NoDupKeys(data.entries)
    ensures var paths := FilePaths(PathAttrs(data.entries));
      && (Get(data.entries, key).Some? ==> PathItem(paths, key) == Ok(Get(data.entries, key).value))
      && (Get(data.entries, key).None? && key in DefaultPaths() ==> PathItem(paths, key) == Ok(Str("")))
      && (Get(data.entries, key).None? && key !in DefaultPaths() ==> PathItem(paths, key) == Err(AttributeError))
  {
    PathAttrsGet(data.entries, key);
  }

  /** The nodes of the `nodes` section, loaded one by one; the first failure wins. */
  function LoadAll(items: seq<Doc>): (r: Result<seq<Node>>)
    ensures r.Ok? ==> |r.value| == |items|
    ensures r.Ok? ==> forall i :: 0 <= i < |items| ==> LoadFromDict(items[i]) == Ok(r.value[i])
  {
    if |items| == 0 then Ok([])
    else
      match LoadAll(items[..|items| - 1])
      case Err(e) => Err(e)
      case Ok(front) =>
        match LoadFromDict(items[|items| - 1])
        case Err(e) => Err(e)
        case Ok(node) => Ok(front + [node])
  }

  function LoadNodes(section: Doc): Result<seq<Node>>
  {
    match Iterate(section)
    case Err(e) => Err(e)
    case Ok(items) => LoadAll(items)
  }

  /** A role is a dictionary key: lists and mappings are unhashable. */
  predicate Hashable(d: Doc)
  {
    !d.List? && !d.Map?
  }

  /** The roles of a node: its `roles` value iterated, each role hashable. */
  function RolesOf(node: Node): (r: Result<seq<Doc>>)
    ensures r.Ok? ==> Iterate(node.roles) == r && forall role <- r.value :: Hashable(role)
    ensures r.Err? ==> r.error == TypeError
    ensures r.Err? <==> Iterate(node.roles).Err? || exists role <- Iterate(node.roles).value :: !Hashable(role)
  {
    match Iterate(node.roles)
    case Err(e) => Err(e)
    case Ok(roles) => if forall role <- roles :: Hashable(role) then Ok(roles) else Err(TypeError)
  }

  /** The groups after `node` was added to the list of each of `roles`, creating
      a list for a role seen for the first time. */
  function AddRoles(groups: OMap<Doc, seq<Node>>, node: Node, roles: seq<Doc>): OMap<Doc, seq<Node>>
  {
    if |roles| == 0 then groups
    else
      var g := AddRoles(groups, node, roles[..|roles| - 1]);
      var role := roles[|roles| - 1];
      Put(g, role, (if Get(g, role).Some? then Get(g, role).value else []) + [node])
  }

  /** The groups after every node of `nodes` was added to its roles' lists. */
  function Group(groups: OMap<Doc, seq<Node>>, nodes: seq<Node>): Result<OMap<Doc, seq<Node>>>
  {
    if |nodes| == 0 then Ok(groups)
    else
      match Group(groups, nodes[..|nodes| - 1])
      case Err(e) => Err(e)
      case Ok(g) =>
        match RolesOf(nodes[|nodes| - 1])
        case Err(e) => Err(e)
        case Ok(roles) => Ok(AddRoles(g, nodes[|nodes| - 1], roles))
  }

  function Count(roles: seq<Doc>, role: Doc): nat
  {
    if |roles| == 0 then 0 else Count(roles[..|roles| - 1], role) + if roles[|roles| - 1] == role then 1 else 0
  }

  lemma {:induction false} CountIn(roles: seq<Doc>, role: Doc)
    ensures Count(roles, role) > 0 <==> role in roles
  {
    if |roles| > 0 {
      CountIn(roles[..|roles| - 1], role);
      assert roles == roles[..|roles| - 1] + [roles[|roles| - 1]];
    }
  }

  /** The reference list of a role: the nodes that have it, in input order, once
      for each time the role is listed. */
  function Members(nodes: seq<Node>, role: Doc): seq<Node>
  {
    if |nodes| == 0 then []
    else
      var node := nodes[|nodes| - 1];
      Members(nodes[..|nodes| - 1], role)
        + (if RolesOf(node).Ok? then seq(Count(RolesOf(node).value, role), _ => node) else [])
  }

  lemma {:induction false} AddRolesGet(groups: OMap<Doc, seq<Node>>, node: Node, roles: seq<Doc>, role: Doc)
    ensures Get(AddRoles(groups, node, roles), role) ==
      if Count(roles, role) == 0 then Get(groups, role)
      else Some((if Get(groups, role).Some? then Get(groups, role).value else []) + seq(Count(roles, role), _ => node))
  {
    if |roles| > 0 {
      var g := AddRoles(groups, node, roles[..|roles| - 1]);
      var last := roles[|roles| - 1];
      AddRolesGet(groups, node, roles[..|roles| - 1], role);
      if last == role {
        GetPutSame(g, last, (if Get(g, last).Some? then Get(g, last).value else []) + [node]);
        var c := Count(roles[..|roles| - 1], role);
        var base := if Get(groups, role).Some? then Get(groups, role).value else [];
        assert Count(roles, role) == c + 1;
        assert seq(c, _ => node) + [node] == seq(c + 1, _ => node);
        if c == 0 {
          assert seq(c + 1, _ => node) == [node];
          assert Get(AddRoles(groups, node, roles), role) == Some(base + seq(c + 1, _ => node));
        } else {
          assert Get(g, role) == Some(base + seq(c, _ => node));
          assert base + seq(c, _ => node) + [node] == base + seq(c + 1, _ => node);
        }
      } else {
        GetPutOther(g, last, (if Get(g, last).Some? then Get(g, last).value else []) + [node], role);
      }
    }
  }

  /** Grouping from no groups fails exactly when some node's roles cannot be
      iterated or include an unhashable value; otherwise each role maps to its
      reference list, and a role no node has is absent. */
  lemma {:induction false} GroupMembers(nodes: seq<Node>, role: Doc)
    ensures Group([], nodes).Err? <==> exists i :: 0 <= i < |nodes| && RolesOf(nodes[i]).Err?
    ensures Group([], nodes).Ok? ==>
      Get(Group([], nodes).value, role) == if Members(nodes, role) == [] then None else Some(Members(nodes, role))
  {
    if |nodes| > 0 {
      var n := |nodes| - 1;
      GroupMembers(nodes[..n], role);
      assert forall i :: 0 <= i < n ==> nodes[..n][i] == nodes[i];
      if Group([], nodes[..n]).Ok? && RolesOf(nodes[n]).Ok? {
        var roles := RolesOf(nodes[n]).value;
        AddRolesGet(Group([], nodes[..n]).value, nodes[n], roles, role);
        if Count(roles, role) == 0 {
          assert seq(Count(roles, role), _ => nodes[n]) == [];
          assert Members(nodes, role) == Members(nodes[..n], role);
        } else {
          assert |Members(nodes, role)| > 0;
        }
      }
    }
  }

  /** Each node is in the list of every one of its roles. */
  lemma NodeInItsRoles(nodes: seq<Node>, i: nat, role: Doc)
    requires i < |nodes| && Group([], nodes).Ok?
    requires RolesOf(nodes[i]).Ok? && role in RolesOf(nodes[i]).value
    ensures Get(Group([], nodes).value, role).Some?
    ensures nodes[i] in Get(Group([], nodes).value, role).value
  {
    GroupMembers(nodes, role);
    MembersHas(nodes, i, role);
  }

  lemma {:induction false} MembersHas(nodes: seq<Node>, i: nat, role: Doc)
    requires i < |nodes| && RolesOf(nodes[i]).Ok? && role in RolesOf(nodes[i]).value
    ensures nodes[i] in Members(nodes, role)
  {
    var n := |nodes| - 1;
    if i < n {
      MembersHas(nodes[..n], i, role);
    } else {
      CountIn(RolesOf(nodes[n]).value, role);
      assert seq(Count(RolesOf(nodes[n]).value, role), _ => nodes[n])[0] == nodes[n];
    }
  }

  /** The top-level sections `load_from_yaml` treats specially. */
  const filePathsKey: string := "file_paths"
  const nodesKey: string := "nodes"
  const podSpecKey: string := "pod_spec"
  const testCasesKey: string := "test_cases"

  /** The error, if any, of loading one top-level section. */
  function SectionError(key: string, value: Doc): Option<PyError>
  {
    if key == filePathsKey then
      if Entries(value).Err? then Some(TypeError) else None
    else if key == nodesKey then
      match LoadNodes(value)
      case Err(e) => Some(e)
      case Ok(nodes) => if Group([], nodes).Err? then Some(TypeError) else None
    else if key == podSpecKey then
      if PodSpecs.LoadFromDict(value).Err? then Some(PodSpecs.LoadFromDict(value).error) else None
    else None
  }

  /** The error of the first section, in document order, that fails to load. */
  function FirstError(entries: OMap<string, Doc>): Option<PyError>
  {
    if |entries| == 0 then None
    else if FirstError(entries[..|entries| - 1]).Some? then FirstError(entries[..|entries| - 1])
    else SectionError(entries[|entries| - 1].0, entries[|entries| - 1].1)
  }


  /** A configuration attribute other than `nodes`. The `test_cases` section is
      kept as loaded. */
  datatype Setting = PathsSetting(paths: FilePaths) | PodSpecSetting(spec: PodSpecs.PodSpec) | TestCasesSetting(section: Doc) | Verbatim(value: Doc) | NodesSetting(groups: OMap<Doc, seq<Node>>)

  /** The attribute a top-level section `key: value` becomes. */
  predicate Loaded(key: string, value: Doc, s: Setting)
  {
    if key == filePathsKey then s.PathsSetting? && Entries(value).Ok? && s.paths.attrs == PathAttrs(Entries(value).value)
    else if key == podSpecKey then PodSpecs.LoadFromDict(value).Ok? && s == PodSpecSetting(PodSpecs.LoadFromDict(value).value)
    else if key == testCasesKey then s == TestCasesSetting(value)
    else s == Verbatim(value)
  }

  /** `Configs`. */
  class Configs {
    var nodes: OMap<Doc, seq<Node>>
    var attrs: map<string, Setting>

    constructor()
      ensures nodes == [] && attrs == map[]
    {
      nodes, attrs := [], map[];
    }

    /** The grouping loop of `load_from_yaml`: each node is appended to the list of
        each of its roles. */
    method GroupNodes(loaded: seq<Node>) returns (r: Result<()>)
      modifies this
      ensures r.Ok? <==> Group(old(nodes), loaded).Ok?
      ensures r.Ok? ==> nodes == Group(old(nodes), loaded).value
      ensures r.Err? ==> r.error == TypeError
      ensures attrs == old(attrs)
    {
      for i := 0 to |loaded|
        invariant Group(old(nodes), loaded[..i]) == Ok(nodes)
        invariant attrs == old(attrs)
      {
        assert loaded[..i + 1][..i] == loaded[..i];
        var node := loaded[i];
        var roles := Iterate(node.roles);
        if roles.Err? {
          GroupFails(old(nodes), loaded, i + 1);
          return Err(TypeError);
        }
        ghost var start := nodes;
        for j := 0 to |roles.value|
          invariant nodes == AddRoles(start, node, roles.value[..j])
          invariant forall role <- roles.value[..j] :: Hashable(role)
          invariant attrs == old(attrs)
        {
          assert roles.value[..j + 1][..j] == roles.value[..j];
          var role := roles.value[j];
          if !Hashable(role) {
            GroupFails(old(nodes), loaded, i + 1);
            return Err(TypeError);
          }
          var list := Get(nodes, role);
          nodes := Put(nodes, role, (if list.Some? then list.value else []) + [node]);
        }
        assert roles.value[..|roles.value|] == roles.value;
      }
      assert loaded[..|loaded|] == loaded;
      return Ok(());
    }

    /** The attributes after the sections of `entries` were loaded. */
    ghost predicate Holds(entries: OMap<string, Doc>)
      reads this
    {
      && (forall key :: key in attrs <==> key != nodesKey && Get(entries, key).Some?)
      && (forall key :: key in attrs ==> Loaded(key, Get(entries, key).value, attrs[key]))
      && (Get(entries, nodesKey).None? ==> nodes == [])
      && (Get(entries, nodesKey).Some? ==>
            LoadNodes(Get(entries, nodesKey).value).Ok? && Group([], LoadNodes(Get(entries, nodesKey).value).value) == Ok(nodes))
    }

    /** One section of `load_from_yaml`, known to load. */
    method LoadSection(key: string, value: Doc)
      requires SectionError(key, value).None?
      requires key == nodesKey ==> nodes == []
      modifies this
      ensures key == nodesKey ==> attrs == old(attrs) && LoadNodes(value).Ok? && Group([], LoadNodes(value).value) == Ok(nodes)
      ensures key != nodesKey ==> nodes == old(nodes) && attrs.Keys == old(attrs).Keys + {key}
      ensures key != nodesKey ==> forall k :: k in old(attrs) && k != key ==> attrs[k] == old(attrs)[k]
      ensures key != nodesKey ==> Loaded(key, value, attrs[key])
    {
      if key == filePathsKey {
        var paths := LoadFilePaths(value);
        attrs := attrs[filePathsKey := PathsSetting(paths.value)];
      } else if key == nodesKey {
        var loaded := LoadNodes(value);
        var grouped := GroupNodes(loaded.value);
      } else if key == podSpecKey {
        attrs := attrs[podSpecKey := PodSpecSetting(PodSpecs.LoadFromDict(value).value)];
      } else if key == testCasesKey {
        attrs := attrs[testCasesKey := TestCasesSetting(value)];
      } else {
        attrs := attrs[key := Verbatim(value)];
      }
    }

    /** The next section of `entries`, which loads, keeps `Holds`. */
    method LoadStep(kvs: OMap<string, Doc>, i: nat)
      requires i < |kvs| && Holds(kvs[..i])
      requires Get(kvs[..i], kvs[i].0).None? && SectionError(kvs[i].0, kvs[i].1).None?
      modifies this
      ensures Holds(kvs[..i + 1])
    {
      var (key, value) := kvs[i];
      assert kvs[..i + 1] == kvs[..i] + [(key, value)];
      forall k ensures Get(kvs[..i + 1], k) == if Get(kvs[..i], k).Some? then Get(kvs[..i], k) else if key == k then Some(value) else None {
        GetSnoc(kvs[..i], key, value, k);
      }
      LoadSection(key, value);
      forall k | k in attrs ensures Loaded(k, Get(kvs[..i + 1], k).value, attrs[k]) {
        if k != key {
          assert attrs[k] == old(attrs)[k];
        }
      }
    }

    /** `Configs.load_from_yaml`: each top-level section is read in document order;
        the first section that fails to load stops the whole load. */
    static method LoadFromYaml(config: Doc) returns (r: Result<Configs>)
      requires config.Map? ==> NoDupKeys(config.entries)
      ensures Entries(config).Err? ==> r == Err(TypeError)
      ensures Entries(config).Ok? && FirstError(Entries(config).value).Some? ==> r == Err(FirstError(Entries(config).value).value)
      ensures Entries(config).Ok? && FirstError(Entries(config).value).None? ==> r.Ok?
      ensures r.Ok? ==> var entries := Entries(config).value;
        && fresh(r.value)
        && (forall key :: key in r.value.attrs <==> key != nodesKey && Get(entries, key).Some?)
        && (forall key :: key in r.value.attrs ==> Loaded(key, Get(entries, key).value, r.value.attrs[key]))
        && (Get(entries, nodesKey).None? ==> r.value.nodes == [])
        && (Get(entries, nodesKey).Some? ==>
              LoadNodes(Get(entries, nodesKey).value).Ok? && Group([], LoadNodes(Get(entries, nodesKey).value).value) == Ok(r.value.nodes))
    {
      var entries := Entries(config);
      if entries.Err? {
        return Err(TypeError);
      }
      var kvs := entries.value;
      var configs := new Configs();
      for i := 0 to |kvs|
        invariant FirstError(kvs[..i]).None?
        invariant configs.Holds(kvs[..i])
        invariant fresh(configs)
      {
        assert kvs[..i + 1][..i] == kvs[..i];
        var error := SectionError(kvs[i].0, kvs[i].1);
        if error.Some? {
          FirstErrorSticks(kvs, i + 1);
          assert kvs[..|kvs|] == kvs;
          return Err(error.value);
        }
        FreshKey(kvs, i);
        configs.LoadStep(kvs, i);
      }
      assert kvs[..|kvs|] == kvs;
      return Ok(configs);
    }

    /** `get_nodes_by_role`: the role's list, or KeyError for a role no node has. */
    method GetNodesByRole(role: string) returns (r: Result<seq<Node>>)
      ensures r.Ok? <==> Get(nodes, Str(role)).Some?
      ensures r.Ok? ==> r.value == Get(nodes, Str(role)).value
      ensures r.Err? ==> r.error == KeyError
    {
      var list := Get(nodes, Str(role));
      if list.None? {
        return Err(KeyError);
      }
      return Ok(list.value);
    }

    /** `__getitem__`: `nodes`, another loaded attribute, or AttributeError. */
    method Item(key: string) returns (r: Result<Setting>)
      ensures key == "nodes" ==> r == Ok(NodesSetting(nodes))
      ensures key != "nodes" ==> (r.Ok? <==> key in attrs)
      ensures key != "nodes" && r.Ok? ==> r.value == attrs[key]
      ensures r.Err? ==> r.error == AttributeError
    {
      if key == "nodes" {
        return Ok(NodesSetting(nodes));
      }
      if key !in attrs {
        return Err(AttributeError);
      }
      return Ok(attrs[key]);
    }
  }

  lemma {:induction false} GroupFails(groups: OMap<Doc, seq<Node>>, nodes: seq<Node>, n: nat)
    requires n <= |nodes| && Group(groups, nodes[..n]).Err?
    ensures Group(groups, nodes).Err?
    decreases |nodes| - n
  {
    if n < |nodes| {
      assert nodes[..n + 1][..n] == nodes[..n];
      GroupFails(groups, nodes, n + 1);
    } else {
      assert nodes[..n] == nodes;
    }
  }

  lemma {:induction false} FirstErrorSticks(entries: OMap<string, Doc>, n: nat)
    requires n <= |entries| && FirstError(entries[..n]).Some?
    ensures FirstError(entries) == FirstError(entries[..n])
    decreases |entries| - n
  {
    if n < |entries| {
      assert entries[..n + 1][..n] == entries[..n];
      FirstErrorSticks(entries, n + 1);
    } else {
      assert entries[..n] == entries;
    }
  }

  /** In a mapping, a key is not found before its own entry. */
  lemma FreshKey(entries: OMap<string, Doc>, i: nat)
    requires NoDupKeys(entries) && i < |entries|
    ensures Get(entries[..i], entries[i].0).None?
  {
    GetSome(entries[..i], entries[i].0);
    forall j | 0 <= j < i ensures Keys(entries[..i])[j] != entries[i].0 {
      assert entries[..i][j] == entries[j];
    }
  }

  /** `load_configs`: the module's `CONFIG_FILE_PATH` when set, else the
      `AEFM_CONFIGS` environment variable, else `aefm_configs.yaml`. */
  function ConfigPath(configFilePath: Option<string>, environment: Option<string>): (path: string)
    ensures configFilePath.Some? ==> path == configFilePath.value
    ensures configFilePath.None? && environment.Some? ==> path == environment.value
    ensures configFilePath.None? && environment.None? ==> path == "aefm_configs.yaml"
  {
    if configFilePath.Some? then configFilePath.value
    else if environment.Some? then environment.value
    else "aefm_configs.yaml"
  }
}
