/** Flattening of a Jaeger export into parent→child call edges
    (`load_from_json` of utils/trace_processor.py). */
module SpanGraph {
  import opened Wrappers
  import opened OrderedMaps
  import opened Seqs
  import opened Spans

  /** Every span of the export, trace after trace (`json_normalize(data, record_path="spans")`). */
  function AllSpans(data: seq<Trace>): seq<Span>
  {
    FlatMap(data, (t: Trace) => t.spans)
  }

  /** Values of the `hostname` tags, in tag order. */
  function Hostnames(tags: seq<Tag>): (r: seq<string>)
    ensures forall v <- r :: exists t <- tags :: t.key == "hostname" && t.value == v
  {
    if |tags| == 0 then []
    else (if tags[0].key == "hostname" then [tags[0].value] else []) + Hostnames(tags[1..])
  }

  /** The pod column of a process: the first `hostname` tag's value, `""` when the
      tags are not a list, and an IndexError for a tag list without a hostname. */
  function PodOf(p: Process): (r: Result<string>)
    ensures p.tags.NotAList? ==> r == Ok("")
    ensures p.tags.TagList? && r.Ok? ==>
      exists i :: 0 <= i < |p.tags.tags| && p.tags.tags[i] == Tag("hostname", r.value) &&
        forall j :: 0 <= j < i ==> p.tags.tags[j].key != "hostname"
    ensures r.Err? <==> p.tags.TagList? && forall t <- p.tags.tags :: t.key != "hostname"
  {
    match p.tags
    case NotAList => Ok("")
    case TagList(tags) =>
      var hs := Hostnames(tags);
      HostnamesFirst(tags);
      if |hs| == 0 then Err(IndexError) else Ok(hs[0])
  }

  lemma {:induction false} HostnamesFirst(tags: seq<Tag>)
    ensures |Hostnames(tags)| == 0 <==> forall t <- tags :: t.key != "hostname"
    ensures |Hostnames(tags)| > 0 ==>
      exists i :: 0 <= i < |tags| && tags[i] == Tag("hostname", Hostnames(tags)[0]) &&
        forall j :: 0 <= j < i ==> tags[j].key != "hostname"
  {
    if |tags| > 0 {
      HostnamesFirst(tags[1..]);
      if tags[0].key != "hostname" && |Hostnames(tags[1..])| > 0 {
        var i :| 0 <= i < |tags[1..]| && tags[1..][i] == Tag("hostname", Hostnames(tags[1..])[0]) &&
          forall j :: 0 <= j < i ==> tags[1..][j].key != "hostname";
        assert tags[i + 1] == Tag("hostname", Hostnames(tags)[0]);
        forall j | 0 <= j < i + 1 ensures tags[j].key != "hostname" {
          if j > 0 { assert tags[j] == tags[1..][j - 1]; }
        }
      }
      if tags[0].key == "hostname" {
        assert tags[0] == Tag("hostname", Hostnames(tags)[0]);
      }
      if forall t <- tags[1..] :: t.key != "hostname" {
        if tags[0].key != "hostname" {
          assert forall t <- tags :: t in tags[1..] || t == tags[0];
        }
      }
    }
  }

  /** The pod column is computed for every process of every trace before any
      edge is built, so a single tag list without a hostname fails the load. */
  predicate HostnamesResolvable(data: seq<Trace>)
  {
    forall t <- data :: forall e <- t.processes :: PodOf(e.1).Ok?
  }

  function Children(spans: seq<Span>): seq<Span>
  {
    Filter(spans, (s: Span) => s.references != [])
  }

  function Roots(spans: seq<Span>): seq<Span>
  {
    Filter(spans, (s: Span) => s.references == [])
  }

  /** The spanID of a span's first reference (the `parentId` column). */
  function ParentRef(s: Span): string
  {
    if s.references == [] then "" else s.references[0].spanId
  }

  /** One row of the three inner joins: a parent span, a child span referring to it
      in the same trace, the trace's process mapping and a root span of that trace. */
  datatype Join = Join(parent: Span, child: Span, trace: Trace, root: Span)

  predicate Joinable(j: Join, data: seq<Trace>)
  {
    var spans := AllSpans(data);
    && j.parent in spans
    && j.child in spans && j.child.references != []
    && ParentRef(j.child) == j.parent.spanId && j.child.traceId == j.parent.traceId
    && j.trace in data && j.trace.traceId == j.child.traceId
    && j.root in spans && j.root.references == [] && j.root.traceId == j.child.traceId
  }

  /** The merges on (parentId, traceId), then on traceId with the process mapping,
      then on traceId with the root spans, each keeping the left table's order. */
  function Joins(data: seq<Trace>): seq<Join>
  {
    FlatMap(AllSpans(data), (p: Span) => ChildJoins(data, p))
  }

  function ChildJoins(data: seq<Trace>, p: Span): seq<Join>
  {
    FlatMap(Children(AllSpans(data)), (c: Span) =>
      if ParentRef(c) == p.spanId && c.traceId == p.traceId then TraceJoins(data, p, c) else [])
  }

  function TraceJoins(data: seq<Trace>, p: Span, c: Span): seq<Join>
  {
    FlatMap(data, (m: Trace) => if m.traceId == c.traceId then RootJoins(data, p, c, m) else [])
  }

  function RootJoins(data: seq<Trace>, p: Span, c: Span, m: Trace): seq<Join>
  {
    FlatMap(Roots(AllSpans(data)), (r: Span) => if r.traceId == c.traceId then [Join(p, c, m, r)] else [])
  }

  /** The last merge: the root spans of the child's trace. */
  lemma RootJoinsMember(data: seq<Trace>, p: Span, c: Span, m: Trace, j: Join)
    ensures j in RootJoins(data, p, c, m) <==>
      j.parent == p && j.child == c && j.trace == m &&
      j.root in Roots(AllSpans(data)) && j.root.traceId == c.traceId
  {
    var f := (r: Span) => if r.traceId == c.traceId then [Join(p, c, m, r)] else [];
    FlatMapMember(Roots(AllSpans(data)), f, j);
    if j.parent == p && j.child == c && j.trace == m && j.root in Roots(AllSpans(data)) && j.root.traceId == c.traceId {
      assert j in f(j.root);
    }
  }

  /** The merge with the child's trace, then its root spans. */
  lemma TraceJoinsMember(data: seq<Trace>, p: Span, c: Span, j: Join)
    ensures j in TraceJoins(data, p, c) <==>
      j.parent == p && j.child == c && j.trace in data && j.trace.traceId == c.traceId &&
      j.root in Roots(AllSpans(data)) && j.root.traceId == c.traceId
  {
    var f := (m: Trace) => if m.traceId == c.traceId then RootJoins(data, p, c, m) else [];
    FlatMapMember(data, f, j);
    if j in TraceJoins(data, p, c) {
      var m :| m in data && j in f(m);
      RootJoinsMember(data, p, c, m, j);
    }
    RootJoinsMember(data, p, c, j.trace, j);
    if j.trace in data && j.trace.traceId == c.traceId {
      assert f(j.trace) == RootJoins(data, p, c, j.trace);
    }
  }

  /** The merge of one parent with the children that refer to it, then the rest. */
  lemma ChildJoinsMember(data: seq<Trace>, p: Span, j: Join)
    ensures j in ChildJoins(data, p) <==>
      j.parent == p && j.child in Children(AllSpans(data)) &&
      ParentRef(j.child) == p.spanId && j.child.traceId == p.traceId &&
      j.trace in data && j.trace.traceId == j.child.traceId &&
      j.root in Roots(AllSpans(data)) && j.root.traceId == j.child.traceId
  {
    var f := (c: Span) =>
      if ParentRef(c) == p.spanId && c.traceId == p.traceId then TraceJoins(data, p, c) else [];
    FlatMapMember(Children(AllSpans(data)), f, j);
    if j in ChildJoins(data, p) {
      var c :| c in Children(AllSpans(data)) && j in f(c);
      TraceJoinsMember(data, p, c, j);
    }
    TraceJoinsMember(data, p, j.child, j);
    if ParentRef(j.child) == p.spanId && j.child.traceId == p.traceId {
      assert f(j.child) == TraceJoins(data, p, j.child);
    }
  }

  /** The rows of the three merges are exactly the joinable combinations. */
  lemma JoinsExactly(data: seq<Trace>, j: Join)
    ensures j in Joins(data) <==> Joinable(j, data)
  {
    var spans := AllSpans(data);
    var f := (p: Span) => ChildJoins(data, p);
    FlatMapMember(spans, f, j);
    if j in Joins(data) {
      var p :| p in spans && j in f(p);
      ChildJoinsMember(data, p, j);
    }
    ChildJoinsMember(data, j.parent, j);
  }

  /** Resolves both sides' microservice and pod through the trace's process map and
      sets `end_time = start_time + child_duration`. Each span's process is looked up
      in its own trace, where Jaeger lists it; a process id the trace does not define
      is a KeyError. */
  function EdgeOf(j: Join): (r: Result<Edge>)
    ensures r.Ok? ==>
      && r.value.traceId == j.child.traceId
      && r.value.traceTime == j.root.startTime
      && r.value.startTime == j.child.startTime
      && r.value.endTime == j.child.startTime + j.child.duration
      && r.value.parentId == j.parent.spanId && r.value.childId == j.child.spanId
      && r.value.parentDuration == j.parent.duration && r.value.childDuration == j.child.duration
      && Get(j.trace.processes, j.child.processId).Some?
      && Get(j.trace.processes, j.parent.processId).Some?
      && r.value.childMs == Get(j.trace.processes, j.child.processId).value.serviceName
      && r.value.parentMs == Get(j.trace.processes, j.parent.processId).value.serviceName
      && Ok(r.value.childPod) == PodOf(Get(j.trace.processes, j.child.processId).value)
      && Ok(r.value.parentPod) == PodOf(Get(j.trace.processes, j.parent.processId).value)
    ensures (r.Err? && Get(j.trace.processes, j.child.processId).Some? &&
             Get(j.trace.processes, j.parent.processId).Some?) ==>
      PodOf(Get(j.trace.processes, j.child.processId).value).Err? ||
      PodOf(Get(j.trace.processes, j.parent.processId).value).Err?
  {
    var cp := Get(j.trace.processes, j.child.processId);
    var pp := Get(j.trace.processes, j.parent.processId);
    if cp.None? || pp.None? then Err(KeyError)
    else
      var cpod := PodOf(cp.value);
      var ppod := PodOf(pp.value);
      if cpod.Err? || ppod.Err? then Err(IndexError)
      else Ok(Edge(
        j.child.traceId, j.root.startTime, j.child.startTime, j.child.startTime + j.child.duration,
        j.parent.spanId, j.child.spanId, j.child.operationName, j.parent.operationName,
        cp.value.serviceName, cpod.value, pp.value.serviceName, ppod.value,
        j.parent.duration, j.child.duration))
  }

  /** Evaluates a column of row results: the first failure, or every value. */
  function CollectAll<T>(rs: seq<Result<T>>): (r: Result<seq<T>>)
    ensures r.Ok? ==> |r.value| == |rs| && forall i :: 0 <= i < |rs| ==> rs[i] == Ok(r.value[i])
    ensures r.Err? ==> exists i :: 0 <= i < |rs| && rs[i].Err?
    ensures (forall i :: 0 <= i < |rs| ==> rs[i].Ok?) ==> r.Ok?
  {
    if |rs| == 0 then Ok([])
    else if rs[0].Err? then Err(rs[0].error)
    else
      var rest := CollectAll(rs[1..]);
      if rest.Err? then
        assert exists i :: 0 <= i < |rs[1..]| && rs[1..][i].Err?;
        var i :| 0 <= i < |rs[1..]| && rs[1..][i].Err?;
        assert rs[i + 1].Err?;
        Err(rest.error)
      else Ok([rs[0].value] + rest.value)
  }

  /** `load_from_json(data)`: one edge per joinable (parent, child, root) combination.
      With spans but no combination, each row-wise `apply` over the empty merge
      yields a frame rather than a column, and `assign` rejects it. */
  function LoadFromJson(data: seq<Trace>): (r: Result<seq<Edge>>)
    ensures !HostnamesResolvable(data) ==> r == Err(IndexError)
    ensures HostnamesResolvable(data) && |AllSpans(data)| == 0 ==> r == Err(KeyError)
    ensures HostnamesResolvable(data) && |AllSpans(data)| > 0 && |Joins(data)| == 0 ==> r == Err(ValueError)
    ensures r.Ok? ==> 0 < |r.value| == |Joins(data)|
  {
    if !HostnamesResolvable(data) then Err(IndexError)
    else if |AllSpans(data)| == 0 then Err(KeyError)   // the column selection on an empty span frame
    else if |Joins(data)| == 0 then Err(ValueError)
    else
      var js := Joins(data);
      CollectAll(seq(|js|, i requires 0 <= i < |js| => EdgeOf(js[i])))
  }

  /** Every edge comes from a child span whose first reference names a span of the
      same trace, and that trace has a root span whose start time is `trace_time`;
      the child's end time is its start plus its duration. */
  lemma LoadedEdgesJoin(data: seq<Trace>, e: Edge)
    requires LoadFromJson(data).Ok? && e in LoadFromJson(data).value
    ensures exists j :: Joinable(j, data) && EdgeOf(j) == Ok(e)
    ensures e.endTime == e.startTime + e.childDuration
  {
    var js := Joins(data);
    var es := LoadFromJson(data).value;
    var i :| 0 <= i < |es| && es[i] == e;
    assert EdgeOf(js[i]) == Ok(e);
    JoinsExactly(data, js[i]);
  }

  /** Conversely, every such combination yields an edge. */
  lemma JoinsLoaded(data: seq<Trace>, j: Join)
    requires LoadFromJson(data).Ok? && Joinable(j, data)
    ensures EdgeOf(j).Ok? && EdgeOf(j).value in LoadFromJson(data).value
  {
    var js := Joins(data);
    JoinsExactly(data, j);
    var i :| 0 <= i < |js| && js[i] == j;
    var rs := seq(|js|, k requires 0 <= k < |js| => EdgeOf(js[k]));
    assert rs[i] == EdgeOf(j);
    assert LoadFromJson(data) == CollectAll(rs);
  }

  /** A trace without a root span contributes no edge. */
  lemma NoRootNoEdges(data: seq<Trace>, tid: string)
    requires LoadFromJson(data).Ok?
    requires forall s <- AllSpans(data) :: s.traceId == tid ==> s.references != []
    ensures forall e <- LoadFromJson(data).value :: e.traceId != tid
  {
    forall e <- LoadFromJson(data).value ensures e.traceId != tid {
      LoadedEdgesJoin(data, e);
    }
  }
}
