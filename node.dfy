/** `Node` (models/node.py): a cluster node as listed in the configuration. */
module Nodes {
  import opened Wrappers
  import opened OrderedMaps
  import opened YamlDocs

  /** The fields are kept as loaded; `ip` is None when the entry has none. */
  datatype Node = Node(name: Doc, roles: Doc, ip: Option<Doc>)

  /** `Node.load_from_dict`: `name` and `roles` are required, `ip` optional. */
  function LoadFromDict(data: Doc): (r: Result<Node>)
    ensures r.Ok? <==> data.Map? && Get(data.entries, "name").Some? && Get(data.entries, "roles").Some?
    ensures r.Ok? ==> Some(r.value.name) == At(data, [Key("name")]) && Some(r.value.roles) == At(data, [Key("roles")])
    ensures r.Ok? ==> r.value.ip == At(data, [Key("ip")])
    ensures r.Err? ==> r.error == (if data.Map? then KeyError else TypeError)
  {
    match Subscript(data, "name")
    case Err(e) => Err(e)
    case Ok(name) =>
      match Subscript(data, "roles")
      case Err(e) => Err(e)
      case Ok(roles) =>
        var ip := if Lookup(data, "ip") == Ok(None) then None else Some(Get(data.entries, "ip").value);
        Ok(Node(name, roles, ip))
  }

  /** `str(node)` and `repr(node)`: the name, which must be a string. */
  function Display(node: Node): (r: Result<string>)
    ensures r.Ok? <==> node.name.Str?
    ensures r.Ok? ==> r.value == node.name.s
  {
    if node.name.Str? then Ok(node.name.s) else Err(TypeError)
  }
}
