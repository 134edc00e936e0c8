/** `JaegerTraceCollector` (AEFM/data_collector/jaeger_trace_collector.py): fetch,
    flatten, decompose and summarise traces. The HTTP fetch is a parameter. */
module JaegerCollector {
  import opened Wrappers
  import opened Seqs
  import opened Spans
  import opened SpanGraph
  import opened Decomposer
  import opened Aggregation

  /** `collect_trace`: the fetched `data` list (or the failure fetching it) becomes
      None when empty and the flattened edge table otherwise. */
  function CollectTrace(fetched: Result<seq<Trace>>): (r: Result<Option<seq<Edge>>>)
    ensures fetched.Err? ==> r == Err(fetched.error)
    ensures fetched.Ok? && |fetched.value| == 0 ==> r == Ok(None)
    ensures fetched.Ok? && |fetched.value| > 0 ==>
      match LoadFromJson(fetched.value)
      case Ok(edges) => r == Ok(Some(edges))
      case Err(e) => r == Err(e)
  {
    match fetched
    case Err(e) => Err(e)
    case Ok(data) =>
      if |data| == 0 then Ok(None)
      else match LoadFromJson(data)
        case Ok(edges) => Ok(Some(edges))
        case Err(e) => Err(e)
  }

  /** One row of the statistical table. */
  datatype StatRow = StatRow(microservice: string, pod: string, p50: real, p95: real)

  /** `p50_data.merge(p95_data)`: an inner join on `(microservice, pod)` in p50 order. */
  function JoinPercentiles(p50: seq<LatencyRow>, p95: seq<LatencyRow>): seq<StatRow>
  {
    if |p50| == 0 then []
    else
      var x := p50[0];
      var matches := Filter(p95, (y: LatencyRow) => RowKey(y) == RowKey(x));
      seq(|matches|, j requires 0 <= j < |matches| => StatRow(x.microservice, x.pod, x.latency, matches[j].latency))
        + JoinPercentiles(p50[1..], p95)
  }

  // ---------------------------------------------------------------------------
  // The two percentile tables have the same keys in the same order

  predicate SameKeys(a: seq<LatencyRow>, b: seq<LatencyRow>)
  {
    |a| == |b| && forall i :: 0 <= i < |a| ==> RowKey(a[i]) == RowKey(b[i])
  }

  lemma {:induction false} FilterSameKeys(a: seq<LatencyRow>, b: seq<LatencyRow>, k: (string, string))
    requires SameKeys(a, b)
    ensures SameKeys(Filter(a, (x: LatencyRow) => RowKey(x) != k), Filter(b, (x: LatencyRow) => RowKey(x) != k))
  {
    if |a| > 0 {
      FilterSameKeys(a[1..], b[1..], k);
    }
  }

  lemma {:induction false} KeepFirstSameKeys(a: seq<LatencyRow>, b: seq<LatencyRow>)
    requires SameKeys(a, b)
    ensures SameKeys(KeepFirst(a), KeepFirst(b))
    decreases |a|
  {
    if |a| > 0 {
      var fa := Filter(a[1..], (x: LatencyRow) => RowKey(x) != RowKey(a[0]));
      var fb := Filter(b[1..], (x: LatencyRow) => RowKey(x) != RowKey(b[0]));
      FilterSameKeys(a[1..], b[1..], RowKey(a[0]));
      assert fb == Filter(b[1..], (x: LatencyRow) => RowKey(x) != RowKey(a[0]));
      KeepFirstSameKeys(fa, fb);
    }
  }

  /** The row set of a decoupled table does not depend on the percentile: only the latencies do. */
  lemma DecoupleKeysIndependentOfPercentile(data: seq<DecomposedEdge>, q1: real, q2: real)
    requires 0.0 <= q1 <= 1.0 && 0.0 <= q2 <= 1.0
    ensures SameKeys(Decouple(data, q1), Decouple(data, q2))
  {
    var a := Perspective(data, ParentView, q1) + Perspective(data, ChildView, q1);
    var b := Perspective(data, ParentView, q2) + Perspective(data, ChildView, q2);
    assert SameKeys(a, b);
    KeepFirstSameKeys(a, b);
  }

  lemma {:induction false} UniqueMatchRow(p95: seq<LatencyRow>, i: nat, from: nat)
    requires i < |p95| && from <= |p95|
    requires forall a, b :: 0 <= a < b < |p95| ==> RowKey(p95[a]) != RowKey(p95[b])
    ensures Filter(p95[from..], (y: LatencyRow) => RowKey(y) == RowKey(p95[i])) == if from <= i then [p95[i]] else []
    decreases |p95| - from
  {
    if from < |p95| {
      UniqueMatchRow(p95, i, from + 1);
      assert p95[from..][1..] == p95[from + 1..];
    }
  }

  lemma {:induction false} JoinAligned(p50: seq<LatencyRow>, p95: seq<LatencyRow>, i: nat)
    requires SameKeys(p50, p95) && i <= |p50|
    requires forall a, b :: 0 <= a < b < |p95| ==> RowKey(p95[a]) != RowKey(p95[b])
    ensures |JoinPercentiles(p50[i..], p95)| == |p50| - i
    ensures forall k :: i <= k < |p50| ==>
      JoinPercentiles(p50[i..], p95)[k - i] == StatRow(p50[k].microservice, p50[k].pod, p50[k].latency, p95[k].latency)
    decreases |p50| - i
  {
    if i < |p50| {
      JoinAligned(p50, p95, i + 1);
      assert p50[i..][1..] == p50[i + 1..];
      UniqueMatchRow(p95, i, 0);
      assert p95[0..] == p95;
      var whole := JoinPercentiles(p50[i..], p95);
      var tail := JoinPercentiles(p50[i + 1..], p95);
      assert whole == [StatRow(p50[i].microservice, p50[i].pod, p50[i].latency, p95[i].latency)] + tail;
      forall k | i < k < |p50|
        ensures whole[k - i] == StatRow(p50[k].microservice, p50[k].pod, p50[k].latency, p95[k].latency)
      {
        assert whole[k - i] == tail[k - (i + 1)];
      }
    }
  }

  /** Row `i` of `stat` carries the key of row `i` of both tables and both latencies. */
  predicate Paired(stat: seq<StatRow>, p50: seq<LatencyRow>, p95: seq<LatencyRow>)
  {
    |stat| == |p50| == |p95| &&
    forall i :: 0 <= i < |stat| ==>
      stat[i] == StatRow(p50[i].microservice, p50[i].pod, p50[i].latency, p95[i].latency) &&
      RowKey(p95[i]) == RowKey(p50[i])
  }

  /** Joining the 0.5 and 0.95 tables of one decomposition pairs them row by row. */
  lemma PercentileJoin(raw: seq<DecomposedEdge>)
    ensures Paired(JoinPercentiles(Decouple(raw, 0.5), Decouple(raw, 0.95)), Decouple(raw, 0.5), Decouple(raw, 0.95))
  {
    var p50 := Decouple(raw, 0.5);
    var p95 := Decouple(raw, 0.95);
    DecoupleKeysIndependentOfPercentile(raw, 0.5, 0.95);
    DecoupleKeys(raw, 0.95);
    JoinAligned(p50, p95, 0);
    assert p50[0..] == p50;
  }

  /** `process_trace`: the statistical table and the raw decomposition, in that order.
      The statistical table has one row per `(microservice, pod)` of the decoupled
      table, carrying that key's 0.5 and 0.95 percentiles. An empty edge table
      fails in `exact_parent_duration`. */
  function ProcessTrace(collected: seq<Edge>): (r: Result<(seq<StatRow>, seq<DecomposedEdge>)>)
    ensures r.Err? <==> |collected| == 0
    ensures r.Err? ==> r.error == KeyError
    ensures r.Ok? ==> r.value.1 == ExactParentDuration(collected, PerRow).value
    ensures r.Ok? ==> Paired(r.value.0, Decouple(r.value.1, 0.5), Decouple(r.value.1, 0.95))
  {
    match ExactParentDuration(collected, PerRow)
    case Err(e) => Err(e)
    case Ok(raw) =>
      PercentileJoin(raw);
      Ok((JoinPercentiles(Decouple(raw, 0.5), Decouple(raw, 0.95)), raw))
  }

  // ---------------------------------------------------------------------------
  // End-to-end latency

  datatype TraceDuration = TraceDuration(traceId: string, traceDuration: int)

  /** A root row: its `parent_id` is nobody's `child_id` in the table. */
  predicate IsRoot(raw: seq<DecomposedEdge>, d: DecomposedEdge)
  {
    forall x <- raw :: x.edge.childId != d.edge.parentId
  }

  function RootRows(raw: seq<DecomposedEdge>): seq<DecomposedEdge>
  {
    Filter(raw, (d: DecomposedEdge) => IsRoot(raw, d))
  }

  function MaxDuration(rows: seq<DecomposedEdge>): (m: int)
    requires |rows| > 0
    ensures forall d <- rows :: d.edge.parentDuration <= m
    ensures exists d <- rows :: d.edge.parentDuration == m
  {
    if |rows| == 1 then rows[0].edge.parentDuration
    else
      var m := MaxDuration(rows[1..]);
      assert forall d <- rows :: d == rows[0] || d in rows[1..];
      var d :| d in rows[1..] && d.edge.parentDuration == m;
      assert d in rows;
      Max(rows[0].edge.parentDuration, m)
  }

  function RootTraceIds(roots: seq<DecomposedEdge>): seq<string>
  {
    Distinct(seq(|roots|, i requires 0 <= i < |roots| => roots[i].edge.traceId))
  }

  lemma RootTraceHasRows(roots: seq<DecomposedEdge>, t: string)
    requires t in RootTraceIds(roots)
    ensures |Filter(roots, (d: DecomposedEdge) => d.edge.traceId == t)| > 0
  {
    var ts := seq(|roots|, i requires 0 <= i < |roots| => roots[i].edge.traceId);
    var i :| 0 <= i < |ts| && ts[i] == t;
    assert roots[i] in roots;
  }

  /** `end_to_end_data`: the largest root-row `parent_duration` of every trace. */
  function EndToEnd(raw: seq<DecomposedEdge>): (r: seq<TraceDuration>)
    ensures |r| == |RootTraceIds(RootRows(raw))|
  {
    var roots := RootRows(raw);
    var ts := RootTraceIds(roots);
    seq(|ts|, i requires 0 <= i < |ts| =>
      RootTraceHasRows(roots, ts[i]);
      TraceDuration(ts[i], MaxDuration(Filter(roots, (d: DecomposedEdge) => d.edge.traceId == ts[i]))))
  }

  /** Each trace appears at most once in the end-to-end table. */
  lemma EndToEndUnique(raw: seq<DecomposedEdge>)
    ensures var out := EndToEnd(raw);
      forall i, j :: 0 <= i < j < |out| ==> out[i].traceId != out[j].traceId
  {
    var ts := RootTraceIds(RootRows(raw));
    var out := EndToEnd(raw);
    forall i, j | 0 <= i < j < |out| ensures out[i].traceId != out[j].traceId {
      assert out[i].traceId == ts[i] && out[j].traceId == ts[j];
    }
  }

  /** Every trace with a root row appears in the end-to-end table. */
  lemma EndToEndCovers(raw: seq<DecomposedEdge>, d: DecomposedEdge)
    requires d in raw && IsRoot(raw, d)
    ensures exists o <- EndToEnd(raw) :: o.traceId == d.edge.traceId
  {
    var roots := RootRows(raw);
    var ts := RootTraceIds(roots);
    var out := EndToEnd(raw);
    assert d in roots;
    var k :| 0 <= k < |roots| && roots[k] == d;
    var all := seq(|roots|, i requires 0 <= i < |roots| => roots[i].edge.traceId);
    assert all[k] == d.edge.traceId;
    assert all[k] in all;
    var i :| 0 <= i < |ts| && ts[i] == d.edge.traceId;
    assert out[i].traceId == d.edge.traceId;
    assert out[i] in out;
  }

  /** A trace's end-to-end duration is the largest `parent_duration` among its root rows. */
  lemma EndToEndIsMax(raw: seq<DecomposedEdge>, o: TraceDuration)
    requires o in EndToEnd(raw)
    ensures exists d <- raw :: IsRoot(raw, d) && d.edge.traceId == o.traceId && d.edge.parentDuration == o.traceDuration
    ensures forall d <- raw :: IsRoot(raw, d) && d.edge.traceId == o.traceId ==> d.edge.parentDuration <= o.traceDuration
  {
    var roots := RootRows(raw);
    var ts := RootTraceIds(roots);
    var out := EndToEnd(raw);
    var i :| 0 <= i < |out| && out[i] == o;
    RootTraceHasRows(roots, ts[i]);
    var group := Filter(roots, (d: DecomposedEdge) => d.edge.traceId == ts[i]);
    assert o.traceId == ts[i] && o.traceDuration == MaxDuration(group);
    var d :| d in group && d.edge.parentDuration == MaxDuration(group);
    assert d in raw;
    forall d' <- raw | IsRoot(raw, d') && d'.edge.traceId == o.traceId ensures d'.edge.parentDuration <= o.traceDuration {
      assert d' in roots;
      assert d' in group;
    }
  }
}
