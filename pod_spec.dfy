/** `PodSpec` (models/pod_spec.py): the CPU and memory limits of the pods under
    test, and their rendering as a Kubernetes `resources` block. */
module PodSpecs {
  import opened Wrappers
  import opened OrderedMaps
  import opened YamlDocs

  /** `cpu_size` may be a string, a float or an int; `mem_size` is kept as loaded. */
  datatype PodSpec = PodSpec(cpuSize: Doc, memSize: Doc)

  /** `PodSpec.load_from_dict`: reads `cpu_size`, then `mem_size`. */
  function LoadFromDict(data: Doc): (r: Result<PodSpec>)
    ensures r.Ok? <==> Subscript(data, "cpu_size").Ok? && Subscript(data, "mem_size").Ok?
    ensures r.Ok? ==> At(data, [Key("cpu_size")]) == Some(r.value.cpuSize) && At(data, [Key("mem_size")]) == Some(r.value.memSize)
    ensures r.Err? ==> r.error == (if data.Map? then KeyError else TypeError)
  {
    match Subscript(data, "cpu_size")
    case Err(e) => Err(e)
    case Ok(cpu) =>
      match Subscript(data, "mem_size")
      case Err(e) => Err(e)
      case Ok(mem) => Ok(PodSpec(cpu, mem))
  }

  /** `to_k8s_resource`: the same memory and CPU under `requests` and `limits`. */
  function ToK8sResource(spec: PodSpec): Doc
  {
    var quantities := Map([("memory", spec.memSize), ("cpu", spec.cpuSize)]);
    Map([("requests", quantities), ("limits", quantities)])
  }

  /** The rendered block requests and limits exactly the spec's memory and CPU. */
  lemma ResourceQuantities(spec: PodSpec)
    ensures At(ToK8sResource(spec), [Key("requests"), Key("memory")]) == Some(spec.memSize)
    ensures At(ToK8sResource(spec), [Key("requests"), Key("cpu")]) == Some(spec.cpuSize)
    ensures At(ToK8sResource(spec), [Key("limits"), Key("memory")]) == Some(spec.memSize)
    ensures At(ToK8sResource(spec), [Key("limits"), Key("cpu")]) == Some(spec.cpuSize)
    ensures ToK8sResource(spec).Map? && Keys(ToK8sResource(spec).entries) == ["requests", "limits"]
  {
    var q := [("memory", spec.memSize), ("cpu", spec.cpuSize)];
    var d := [("requests", Map(q)), ("limits", Map(q))];
    assert "limits" != "requests" by { assert "limits"[0] != "requests"[0]; }
    assert "cpu" != "memory" by { assert "cpu"[0] != "memory"[0]; }
    assert Get(d, "limits") == Some(Map(q)) by { assert d[1..][0].0 == "limits"; }
    assert Get(q, "cpu") == Some(spec.cpuSize) by { assert q[1..][0].0 == "cpu"; }
    assert [Key("requests"), Key("memory")][1..] == [Key("memory")];
    assert [Key("requests"), Key("cpu")][1..] == [Key("cpu")];
    assert [Key("limits"), Key("memory")][1..] == [Key("memory")];
    assert [Key("limits"), Key("cpu")][1..] == [Key("cpu")];
  }

  /** Loading a mapping whose first entries are the two sizes gives those sizes,
      whatever follows them. */
  lemma LoadThenRender(cpu: Doc, mem: Doc, rest: OMap<string, Doc>)
    ensures LoadFromDict(Map([("cpu_size", cpu), ("mem_size", mem)] + rest)) == Ok(PodSpec(cpu, mem))
  {
    var entries := [("cpu_size", cpu), ("mem_size", mem)] + rest;
    assert "mem_size" != "cpu_size" by { assert "mem_size"[0] != "cpu_size"[0]; }
    assert entries[1..][0] == ("mem_size", mem);
    assert Get(entries, "mem_size") == Some(mem);
  }
}
