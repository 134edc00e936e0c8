/** `KubernetesYAMLs` (AEFM/utils/kubernetes_YAMLs.py): a batch of loaded
    Kubernetes documents edited path by path. Reading and writing the files is
    outside the model: the constructor receives the loaded documents. */
module KubernetesYamls {
  import opened Wrappers
  import opened Strings
  import opened OrderedMaps
  import opened YamlDocs
  import opened YamlEdit
  import opened PodSpecs

  /** What `update` writes at `path`: a fixed value, or (with `key_path`) the entry
      of a mapping selected by the document's value at `keyPath`. */
  datatype Request = SetTo(value: Doc) | SetByKey(mapping: OMap<string, Doc>, keyPath: string)

  function Apply(doc: Doc, path: string, request: Request): Result<Doc>
  {
    match request
    case SetTo(value) => EditAsWritten(doc, path, value)
    case SetByKey(mapping, keyPath) => MappingEdit(doc, path, mapping, keyPath)
  }

  /** The document's `kind` is `kind`. */
  predicate OfKind(doc: Doc, kind: string)
  {
    At(doc, [Key("kind")]) == Some(Str(kind))
  }

  /** One document through the body of the loop of `update`. */
  function UpdateDoc(doc: Doc, path: string, request: Request, targetKind: Option<string>): Result<Doc>
  {
    if targetKind.None? then Apply(doc, path, request)
    else
      match Search(doc, "kind")
      case Err(e) => Err(e)
      case Ok((success, target, _)) =>
        if target != Str(targetKind.value) || !success then Ok(doc) else Apply(doc, path, request)
  }

  /** Only documents of the target kind are edited; the others pass unchanged. */
  lemma KindSelects(doc: Doc, path: string, request: Request, kind: string)
    requires doc.Map?
    ensures OfKind(doc, kind) ==> UpdateDoc(doc, path, request, Some(kind)) == Apply(doc, path, request)
    ensures !OfKind(doc, kind) ==> UpdateDoc(doc, path, request, Some(kind)) == Ok(doc)
  {
    SegmentsOfKeys("kind", "kind");
    SearchFound(doc, [Key("kind")], [], "kind");
    assert Search(doc, "kind").Ok?;
  }

  /** `update`'s result over a list of documents: each document in order, the
      first error aborting the batch. */
  function UpdateAll(docs: seq<Doc>, path: string, request: Request, targetKind: Option<string>): Result<seq<Doc>>
  {
    if |docs| == 0 then Ok([])
    else
      match UpdateAll(docs[..|docs| - 1], path, request, targetKind)
      case Err(e) => Err(e)
      case Ok(front) =>
        match UpdateDoc(docs[|docs| - 1], path, request, targetKind)
        case Err(e) => Err(e)
        case Ok(d) => Ok(front + [d])
  }

  /** A batch succeeds exactly when every document does; it then keeps the number
      and order of the documents, each updated on its own. */
  lemma {:induction false} UpdateAllPointwise(docs: seq<Doc>, path: string, request: Request, targetKind: Option<string>)
    ensures UpdateAll(docs, path, request, targetKind).Ok? <==>
      forall i :: 0 <= i < |docs| ==> UpdateDoc(docs[i], path, request, targetKind).Ok?
    ensures UpdateAll(docs, path, request, targetKind).Ok? ==>
      |UpdateAll(docs, path, request, targetKind).value| == |docs| &&
      forall i :: 0 <= i < |docs| ==> UpdateAll(docs, path, request, targetKind).value[i] == UpdateDoc(docs[i], path, request, targetKind).value
  {
    if |docs| > 0 {
      var n := |docs|;
      var front := docs[..n - 1];
      UpdateAllPointwise(front, path, request, targetKind);
      var rf := UpdateAll(front, path, request, targetKind);
      var last := UpdateDoc(docs[n - 1], path, request, targetKind);
      if rf.Err? {
        var j :| 0 <= j < |front| && UpdateDoc(front[j], path, request, targetKind).Err?;
        assert docs[j] == front[j];
      } else if last.Ok? {
        var all := rf.value + [last.value];
        assert UpdateAll(docs, path, request, targetKind) == Ok(all);
        forall i | 0 <= i < n
          ensures UpdateDoc(docs[i], path, request, targetKind).Ok?
          ensures all[i] == UpdateDoc(docs[i], path, request, targetKind).value
        {
          if i < n - 1 {
            assert docs[i] == front[i];
          }
        }
      }
    }
  }

  /** A failing document fails the batch with its own error when every document
      before it succeeds. */
  lemma {:induction false} UpdateAllFails(docs: seq<Doc>, i: nat, path: string, request: Request, targetKind: Option<string>)
    requires i < |docs| && UpdateAll(docs[..i], path, request, targetKind).Ok?
    requires UpdateDoc(docs[i], path, request, targetKind).Err?
    ensures UpdateAll(docs, path, request, targetKind) == Err(UpdateDoc(docs[i], path, request, targetKind).error)
    decreases |docs|
  {
    if i < |docs| - 1 {
      assert docs[..|docs| - 1][..i] == docs[..i];
      UpdateAllFails(docs[..|docs| - 1], i, path, request, targetKind);
    } else {
      assert docs[..i] == docs[..|docs| - 1];
    }
  }

  /** The step from `docs[..i]` to `docs[..i + 1]`. */
  lemma UpdateAllSnoc(docs: seq<Doc>, i: nat, path: string, request: Request, targetKind: Option<string>)
    requires i < |docs|
    ensures docs[..i + 1][..i] == docs[..i]
    ensures UpdateAll(docs[..i + 1], path, request, targetKind) ==
      match UpdateAll(docs[..i], path, request, targetKind)
      case Err(e) => Err(e)
      case Ok(front) =>
        match UpdateDoc(docs[i], path, request, targetKind)
        case Err(e) => Err(e)
        case Ok(d) => Ok(front + [d])
  {
    assert docs[..i + 1][..i] == docs[..i];
  }

  /** Every mapping document not of the target kind comes out unchanged. */
  lemma OtherKindsUnchanged(docs: seq<Doc>, path: string, request: Request, kind: string, i: nat)
    requires UpdateAll(docs, path, request, Some(kind)).Ok?
    requires i < |docs| && docs[i].Map? && !OfKind(docs[i], kind)
    ensures i < |UpdateAll(docs, path, request, Some(kind)).value|
    ensures UpdateAll(docs, path, request, Some(kind)).value[i] == docs[i]
  {
    UpdateAllPointwise(docs, path, request, Some(kind));
    KindSelects(docs[i], path, request, kind);
  }

  /** `update` goes through `_edit` as written: `name[0]` on a document whose
      `name` is a list raises TypeError, e.g. `[{"a": [1]}]` updated at `a[0]`. */
  lemma UpdateOfFirstItemRaises(name: string, items: seq<Doc>, value: Doc)
    requires '.' !in name && '[' !in name && |items| > 0
    ensures UpdateAll([Map([(name, List(items))])], name + "[0]", SetTo(value), None) == Err(TypeError)
  {
    var docs := [Map([(name, List(items))])];
    ReplaceFirstItem(name, items, value);
    assert docs[..0] == [];
  }

  /** `dict[str, int]` of replicas as a mapping of documents. */
  function Replicas(counts: OMap<string, int>): (m: OMap<string, Doc>)
    ensures |m| == |counts|
    ensures forall i :: 0 <= i < |counts| ==> m[i] == (counts[i].0, Int(counts[i].1))
  {
    seq(|counts|, i requires 0 <= i < |counts| => (counts[i].0, Int(counts[i].1)))
  }

  lemma {:induction false} GetReplicas(counts: OMap<string, int>, name: string)
    ensures Get(Replicas(counts), name) == (match Get(counts, name) case None => None case Some(c) => Some(Int(c)))
  {
    if |counts| > 0 {
      GetReplicas(counts[1..], name);
      assert Replicas(counts)[1..] == Replicas(counts[1..]);
    }
  }

  const namespacePath := "metadata" + "." + "namespace"
  const resourcesRest := "template.spec.containers[0].resources"
  const resourcesPath := "spec." + resourcesRest
  const imageRest := "template.spec.containers[0].image"
  const imagePath := "spec." + imageRest
  const replicasPath := "spec" + "." + "replicas"
  const namePath := "metadata" + "." + "name"

  /** The resource-limit update of `base_yaml_preparation`, made only when a pod spec is given. */
  function WithLimits(named: seq<Doc>, podSpec: Option<PodSpec>): Result<seq<Doc>>
  {
    if podSpec.None? then Ok(named)
    else UpdateAll(named, resourcesPath, SetTo(ToK8sResource(podSpec.value)), Some("Deployment"))
  }

  /** The three updates of `base_yaml_preparation`, in order. */
  function Prepared(docs: seq<Doc>, namespace: string, podSpec: Option<PodSpec>, appImg: Option<string>): Result<seq<Doc>>
  {
    match UpdateAll(docs, namespacePath, SetTo(Str(namespace)), None)
    case Err(e) => Err(e)
    case Ok(named) =>
      match WithLimits(named, podSpec)
      case Err(e) => Err(e)
      case Ok(limited) =>
        if appImg.None? then Ok(limited)
        else UpdateAll(limited, imagePath, SetByKey([("APP_IMG", Str(appImg.value))], imagePath), Some("Deployment"))
  }

  /** The documents `base_yaml_preparation` leaves behind when one of its updates
      fails: the result of the updates that succeeded before it. */
  function PreparedBeforeError(docs: seq<Doc>, namespace: string, podSpec: Option<PodSpec>): seq<Doc>
  {
    match UpdateAll(docs, namespacePath, SetTo(Str(namespace)), None)
    case Err(_) => docs
    case Ok(named) =>
      match WithLimits(named, podSpec)
      case Err(_) => named
      case Ok(limited) => limited
  }

  /** The path `a.b` where neither part has a dot or a bracket. */
  lemma TwoKeys(a: string, b: string, path: string)
    requires path == a + "." + b && '.' !in a && '[' !in a && '.' !in b && '[' !in b
    ensures Segments(path) == [Key(a), Key(b)]
  {
    SegmentsOfKeys(a, b);
  }

  /** The first part of a path that starts with `spec.`. */
  lemma SpecFirst(path: string, rest: string)
    requires path == "spec." + rest
    ensures Split(path, '.')[0] == "spec" && |Split(path, '.')| > 1
  {
    assert path == "spec" + ['.'] + rest;
    SplitAround("spec", rest, '.');
    SplitNoSeparator("spec", '.');
  }

  /** The fixed paths of `base_yaml_preparation` and `assign_containers`, parsed. */
  lemma FixedPaths()
    ensures Segments(namespacePath) == [Key("metadata"), Key("namespace")]
    ensures Segments(namePath) == [Key("metadata"), Key("name")]
    ensures Segments(replicasPath) == [Key("spec"), Key("replicas")]
  {
    TwoKeys("metadata", "namespace", namespacePath);
    TwoKeys("metadata", "name", namePath);
    TwoKeys("spec", "replicas", replicasPath);
  }

  /** An edit of a path that starts with `spec.` leaves `metadata` as it was. */
  lemma SpecEditKeepsMetadata(doc: Doc, rest: string, value: Doc)
    requires EditAsWritten(doc, "spec." + rest, value).Ok?
    ensures Get(EditAsWritten(doc, "spec." + rest, value).value.entries, "metadata") == Get(doc.entries, "metadata")
  {
    assert Edit(doc, "spec." + rest, value) == EditAsWritten(doc, "spec." + rest, value);
    SpecPartsKeepMetadata(doc, "spec." + rest, rest, value);
  }

  lemma SpecPartsKeepMetadata(doc: Doc, path: string, rest: string, value: Doc)
    requires path == "spec." + rest
    requires |Split(path, '.')| > 0 && EditParts(doc, Split(path, '.'), value, false).Ok?
    ensures EditParts(doc, Split(path, '.'), value, false).value.Map? && doc.Map?
    ensures Get(EditParts(doc, Split(path, '.'), value, false).value.entries, "metadata") == Get(doc.entries, "metadata")
  {
    SpecFirst(path, rest);
    var parts := Split(path, '.');
    PrefixSegments(path);
    var walk := Segments(Join(".", parts[..|parts| - 1]));
    SpecSegment();
    assert walk[0] == ParseSegment(parts[0]);
    EditPartsKeepsOtherKeys(doc, parts, value, false, "metadata");
  }

  /** `spec` parses to a plain key, other than `metadata`. */
  lemma SpecSegment()
    ensures ParseSegment("spec") == Key("spec") && "metadata" != "spec"
  {
    assert '[' !in "spec";
    assert "metadata"[0] != "spec"[0];
  }

  /** An update of a `spec.` path leaves every document's `metadata` as it was. */
  lemma SpecUpdateKeepsMetadata(docs: seq<Doc>, rest: string, request: Request, i: nat)
    requires UpdateAll(docs, "spec." + rest, request, Some("Deployment")).Ok? && i < |docs| && docs[i].Map?
    ensures i < |UpdateAll(docs, "spec." + rest, request, Some("Deployment")).value|
    ensures At(UpdateAll(docs, "spec." + rest, request, Some("Deployment")).value[i], [Key("metadata")]) == At(docs[i], [Key("metadata")])
  {
    var path := "spec." + rest;
    UpdateAllPointwise(docs, path, request, Some("Deployment"));
    var d := UpdateAll(docs, path, request, Some("Deployment")).value[i];
    KindSelects(docs[i], path, request, "Deployment");
    if d != docs[i] {
      match request
      case SetTo(v) =>
        SpecEditKeepsMetadata(docs[i], rest, v);
      case SetByKey(mapping, keyPath) =>
        var found := Search(docs[i], keyPath);
        var key := found.value.1;
        SpecEditKeepsMetadata(docs[i], rest, Get(mapping, key.s).value);
      assert d.Map?;
    }
  }

  /** After `base_yaml_preparation` every document is in the namespace. */
  lemma PreparedNamespace(docs: seq<Doc>, namespace: string, podSpec: Option<PodSpec>, appImg: Option<string>, i: nat)
    requires Prepared(docs, namespace, podSpec, appImg).Ok? && i < |docs|
    ensures i < |Prepared(docs, namespace, podSpec, appImg).value|
    ensures At(Prepared(docs, namespace, podSpec, appImg).value[i], [Key("metadata"), Key("namespace")]) == Some(Str(namespace))
  {
    var named := UpdateAll(docs, namespacePath, SetTo(Str(namespace)), None);
    FixedPaths();
    NamespaceSet(docs, namespacePath, namespace, i);
    var limited := named.value;
    if podSpec.Some? {
      var r := SetTo(ToK8sResource(podSpec.value));
      NamespaceKept(named.value, resourcesRest, r, namespace, i);
      limited := UpdateAll(named.value, resourcesPath, r, Some("Deployment")).value;
    }
    assert |limited| == |docs| && limited[i].Map? && At(limited[i], [Key("metadata"), Key("namespace")]) == Some(Str(namespace));
    if appImg.Some? {
      var r := SetByKey([("APP_IMG", Str(appImg.value))], imagePath);
      NamespaceKept(limited, imageRest, r, namespace, i);
    }
  }

  /** When a later update of `base_yaml_preparation` fails, the documents it leaves
      behind are already in the namespace. */
  lemma NamespaceBeforeError(docs: seq<Doc>, namespace: string, podSpec: Option<PodSpec>, i: nat)
    requires UpdateAll(docs, namespacePath, SetTo(Str(namespace)), None).Ok? && i < |docs|
    ensures i < |PreparedBeforeError(docs, namespace, podSpec)|
    ensures At(PreparedBeforeError(docs, namespace, podSpec)[i], [Key("metadata"), Key("namespace")]) == Some(Str(namespace))
  {
    var named := UpdateAll(docs, namespacePath, SetTo(Str(namespace)), None).value;
    FixedPaths();
    NamespaceSet(docs, namespacePath, namespace, i);
    if podSpec.Some? && WithLimits(named, podSpec).Ok? {
      NamespaceKept(named, resourcesRest, SetTo(ToK8sResource(podSpec.value)), namespace, i);
    }
  }

  /** An update of `metadata.namespace` on every document puts every document in
      the namespace. */
  lemma NamespaceSet(docs: seq<Doc>, path: string, namespace: string, i: nat)
    requires Segments(path) == [Key("metadata"), Key("namespace")]
    requires UpdateAll(docs, path, SetTo(Str(namespace)), None).Ok? && i < |docs|
    ensures |UpdateAll(docs, path, SetTo(Str(namespace)), None).value| == |docs|
    ensures UpdateAll(docs, path, SetTo(Str(namespace)), None).value[i].Map?
    ensures At(UpdateAll(docs, path, SetTo(Str(namespace)), None).value[i], [Key("metadata"), Key("namespace")]) == Some(Str(namespace))
  {
    UpdateAllPointwise(docs, path, SetTo(Str(namespace)), None);
    assert UpdateAll(docs, path, SetTo(Str(namespace)), None).value[i] == EditAsWritten(docs[i], path, Str(namespace)).value;
  }

  /** Later updates of `spec.` paths keep the namespace. */
  lemma NamespaceKept(docs: seq<Doc>, rest: string, request: Request, namespace: string, i: nat)
    requires UpdateAll(docs, "spec." + rest, request, Some("Deployment")).Ok? && i < |docs| && docs[i].Map?
    requires At(docs[i], [Key("metadata"), Key("namespace")]) == Some(Str(namespace))
    ensures |UpdateAll(docs, "spec." + rest, request, Some("Deployment")).value| == |docs|
    ensures UpdateAll(docs, "spec." + rest, request, Some("Deployment")).value[i].Map?
    ensures At(UpdateAll(docs, "spec." + rest, request, Some("Deployment")).value[i], [Key("metadata"), Key("namespace")]) == Some(Str(namespace))
  {
    UpdateAllPointwise(docs, "spec." + rest, request, Some("Deployment"));
    SpecUpdateKeepsMetadata(docs, rest, request, i);
    var after := UpdateAll(docs, "spec." + rest, request, Some("Deployment")).value[i];
    KindSelects(docs[i], "spec." + rest, request, "Deployment");
    assert after.Map?;
    MetadataCarries(docs[i], after);
  }

  /** The same `metadata` gives the same `metadata.namespace`. */
  lemma MetadataCarries(before: Doc, after: Doc)
    requires At(after, [Key("metadata")]) == At(before, [Key("metadata")]) && before.Map? && after.Map?
    ensures At(after, [Key("metadata"), Key("namespace")]) == At(before, [Key("metadata"), Key("namespace")])
  {
    assert [Key("metadata"), Key("namespace")][1..] == [Key("namespace")];
  }

  /** `update("spec.replicas", replicas, key_path="metadata.name")` for the
      Deployments of `docs`. */
  function AssignedContainers(docs: seq<Doc>, counts: OMap<string, int>): Result<seq<Doc>>
  {
    UpdateAll(docs, replicasPath, SetByKey(Replicas(counts), namePath), Some("Deployment"))
  }

  /** Every Deployment named in `replicas` gets its count; everything else is
      untouched. */
  lemma AssignedReplicas(docs: seq<Doc>, counts: OMap<string, int>, i: nat, name: string, count: int)
    requires AssignedContainers(docs, counts).Ok? && i < |docs| && docs[i].Map? && OfKind(docs[i], "Deployment")
    requires At(docs[i], [Key("metadata"), Key("name")]) == Some(Str(name)) && Get(counts, name) == Some(count)
    ensures i < |AssignedContainers(docs, counts).value|
    ensures At(AssignedContainers(docs, counts).value[i], [Key("spec"), Key("replicas")]) == Some(Int(count))
  {
    var request := SetByKey(Replicas(counts), namePath);
    UpdateAllPointwise(docs, replicasPath, request, Some("Deployment"));
    KindSelects(docs[i], replicasPath, request, "Deployment");
    FixedPaths();
    GetReplicas(counts, name);
    MappingEditSelects(docs[i], replicasPath, Replicas(counts), namePath);
    SearchFound(docs[i], [Key("metadata"), Key("name")], [], namePath);
  }

  class KubernetesYAMLs {
    var yamls: seq<Doc>

    /** The documents as loaded, empty ones already dropped. */
    constructor(loaded: seq<Doc>)
      ensures yamls == loaded
    {
      yamls := loaded;
    }

    /** `update`: rebuilds the list document by document. On an error the list
        is left as it was. */
    method Update(path: string, request: Request, targetKind: Option<string>) returns (r: Result<()>)
      modifies this
      ensures UpdateAll(old(yamls), path, request, targetKind).Ok? ==>
        r.Ok? && yamls == UpdateAll(old(yamls), path, request, targetKind).value
      ensures UpdateAll(old(yamls), path, request, targetKind).Err? ==>
        r == Err(UpdateAll(old(yamls), path, request, targetKind).error) && yamls == old(yamls)
    {
      var edited: seq<Doc> := [];
      for i := 0 to |yamls|
        modifies {}
        invariant UpdateAll(yamls[..i], path, request, targetKind) == Ok(edited)
      {
        UpdateAllSnoc(yamls, i, path, request, targetKind);
        var doc := yamls[i];
        var skip := false;
        if targetKind.Some? {
          var found := SearchPath(doc, "kind");
          if found.Err? {
            UpdateAllFails(yamls, i, path, request, targetKind);
            return Err(found.error);
          }
          var (success, target, _) := found.value;
          skip := target != Str(targetKind.value) || !success;
        }
        if skip {
          edited := edited + [doc];
        } else {
          var result := Apply(doc, path, request);
          if result.Err? {
            UpdateAllFails(yamls, i, path, request, targetKind);
            return Err(result.error);
          }
          edited := edited + [result.value];
        }
      }
      assert yamls[..|yamls|] == yamls;
      yamls := edited;
      return Ok(());
    }

    /** `base_yaml_preparation`: the namespace on every document, then the
        resource limits and the image on the Deployments. */
    method BaseYamlPreparation(namespace: string, podSpec: Option<PodSpec>, appImg: Option<string>) returns (r: Result<()>)
      modifies this
      ensures r.Ok? <==> Prepared(old(yamls), namespace, podSpec, appImg).Ok?
      ensures r.Ok? ==> yamls == Prepared(old(yamls), namespace, podSpec, appImg).value
      ensures r.Err? ==> r.error == Prepared(old(yamls), namespace, podSpec, appImg).error
      ensures r.Err? ==> yamls == PreparedBeforeError(old(yamls), namespace, podSpec)
    {
      r := Update(namespacePath, SetTo(Str(namespace)), None);
      if r.Err? {
        return;
      }
      if podSpec.Some? {
        r := Update(resourcesPath, SetTo(ToK8sResource(podSpec.value)), Some("Deployment"));
        if r.Err? {
          return;
        }
      }
      if appImg.Some? {
        r := Update(imagePath, SetByKey([("APP_IMG", Str(appImg.value))], imagePath), Some("Deployment"));
      }
    }

    /** `assign_containers`: each Deployment's `spec.replicas` from `replicas`,
        selected by the Deployment's name. */
    method AssignContainers(replicas: OMap<string, int>) returns (r: Result<()>)
      modifies this
      ensures r.Ok? <==> AssignedContainers(old(yamls), replicas).Ok?
      ensures r.Ok? ==> yamls == AssignedContainers(old(yamls), replicas).value
      ensures r.Err? ==> r.error == AssignedContainers(old(yamls), replicas).error && yamls == old(yamls)
    {
      r := Update(replicasPath, SetByKey(Replicas(replicas), namePath), Some("Deployment"));
    }
  }
}
