/** `PromHardwareCollector` (AEFM/data_collector/prom_hardware_collector.py): the
    reduction of a Prometheus range-query response to usage records. The HTTP
    fetch is outside the model: the method receives the decoded response. */
module PromHardware {
  import opened Wrappers
  import opened Strings
  import opened OrderedMaps
  import opened Usage

  /** One entry of `data.result`: the `metric.pod` label and the `[timestamp, value]`
      pairs of `values`. */
  datatype Series = Series(pod: string, values: seq<(real, real)>)

  /** The decoded response; `data` is None when `data` or `data.result` is falsy. */
  datatype Response = Response(data: Option<seq<Series>>)

  /** `"-".join(pod.split("-")[:-2])`: the pod name without its last two segments,
      `""` when it has fewer than three. */
  function MicroserviceOf(pod: string): (ms: string)
    ensures |Split(pod, '-')| < 3 ==> ms == ""
  {
    var parts := Split(pod, '-');
    if |parts| < 2 then "" else Join("-", parts[..|parts| - 2])
  }

  /** A Kubernetes pod name `<deployment>-<replicaset hash>-<pod hash>` maps back
      to its deployment. */
  lemma PodOfDeployment(deployment: string, replicaSet: string, suffix: string)
    requires '-' !in replicaSet && '-' !in suffix
    ensures MicroserviceOf(deployment + "-" + replicaSet + "-" + suffix) == deployment
  {
    var pod := deployment + "-" + replicaSet + "-" + suffix;
    assert pod == deployment + ['-'] + (replicaSet + ['-'] + suffix);
    SplitAround(deployment, replicaSet + ['-'] + suffix, '-');
    SplitAround(replicaSet, suffix, '-');
    SplitNoSeparator(replicaSet, '-');
    SplitNoSeparator(suffix, '-');
    var parts := Split(pod, '-');
    assert parts == Split(deployment, '-') + [replicaSet] + [suffix];
    assert parts[..|parts| - 2] == Split(deployment, '-');
    JoinSplit(deployment, '-');
  }

  /** `max(float(v[1]) for v in values)`, scanning left to right. */
  function MaxValue(values: seq<(real, real)>): (m: real)
    requires |values| > 0
    ensures forall v <- values :: v.1 <= m
    ensures exists v <- values :: v.1 == m
  {
    var n := |values|;
    if n == 1 then values[0].1
    else
      var front := MaxValue(values[..n - 1]);
      assert forall v <- values :: v == values[n - 1] || v in values[..n - 1];
      assert forall v <- values[..n - 1] :: v in values;
      if values[n - 1].1 > front then values[n - 1].1 else front
  }

  predicate AllHaveValues(series: seq<Series>)
  {
    forall s <- series :: |s.values| > 0
  }

  /** The records after `set`ting every series of `series` in order. */
  function Reduce(series: seq<Series>): Records
    requires AllHaveValues(series)
  {
    if |series| == 0 then []
    else
      var s := series[|series| - 1];
      assert s in series;
      SetUsage(Reduce(series[..|series| - 1]), MicroserviceOf(s.pod), s.pod, MaxValue(s.values))
  }

  lemma {:induction false} ReduceWellFormed(series: seq<Series>)
    requires AllHaveValues(series)
    ensures WellFormed(Reduce(series))
  {
    if |series| > 0 {
      var s := series[|series| - 1];
      assert s in series;
      ReduceWellFormed(series[..|series| - 1]);
      SetKeepsWellFormed(Reduce(series[..|series| - 1]), MicroserviceOf(s.pod), s.pod, MaxValue(s.values));
    }
  }

  /** Every pod of the response is recorded, whether or not its microservice was
      asked for: the usage of series `i` is its maximum value unless a later series
      names the same pod, in which case the later one wins. */
  lemma {:induction false} LastSeriesWins(series: seq<Series>, i: nat)
    requires AllHaveValues(series) && i < |series|
    requires forall j :: i < j < |series| ==> series[j].pod != series[i].pod
    ensures Lookup(Reduce(series), MicroserviceOf(series[i].pod), series[i].pod) == Some(MaxValue(series[i].values))
    decreases |series|
  {
    var s := series[|series| - 1];
    assert s in series;
    var prefix := series[..|series| - 1];
    assert AllHaveValues(prefix);
    assert Reduce(series) == SetUsage(Reduce(prefix), MicroserviceOf(s.pod), s.pod, MaxValue(s.values));
    if i == |series| - 1 {
      LookupSetSame(Reduce(prefix), MicroserviceOf(s.pod), s.pod, MaxValue(s.values));
    } else {
      assert prefix[i] == series[i];
      assert s.pod != series[i].pod;
      forall j | i < j < |prefix| ensures prefix[j].pod != prefix[i].pod {
        assert prefix[j] == series[j];
      }
      LastSeriesWins(prefix, i);
      LookupSetOther(Reduce(prefix), MicroserviceOf(s.pod), s.pod, MaxValue(s.values),
        MicroserviceOf(series[i].pod), series[i].pod);
    }
  }

  /** Nothing but the pods of the response is recorded. */
  lemma {:induction false} OnlyResponsePods(series: seq<Series>, ms: string, pod: string)
    requires AllHaveValues(series)
    requires Lookup(Reduce(series), ms, pod).Some?
    ensures exists s <- series :: s.pod == pod && MicroserviceOf(pod) == ms
    decreases |series|
  {
    var s := series[|series| - 1];
    assert s in series;
    var prefix := series[..|series| - 1];
    if (ms, pod) != (MicroserviceOf(s.pod), s.pod) {
      LookupSetOther(Reduce(prefix), MicroserviceOf(s.pod), s.pod, MaxValue(s.values), ms, pod);
      OnlyResponsePods(prefix, ms, pod);
      var t :| t in prefix && t.pod == pod && MicroserviceOf(pod) == ms;
      assert t in series;
    }
  }

  /** The records `CollectUsage` builds, or the error it raises: a ValueError
      exactly when some series has no values, and otherwise well-formed records. */
  function UsageOf(response: Response): (r: Result<Records>)
    ensures r.Err? <==> response.data.Some? && !AllHaveValues(response.data.value)
    ensures r.Err? ==> r.error == ValueError
    ensures response.data.None? ==> r == Ok([])
    ensures r.Ok? ==> WellFormed(r.value)
  {
    match response.data
    case None => Ok([])
    case Some(series) =>
      if AllHaveValues(series) then
        ReduceWellFormed(series);
        Ok(Reduce(series))
      else Err(ValueError)
  }

  /** `collect_cpu_usage` / `collect_mem_usage` after the fetch: a usage entry per
      series; `max` of an empty `values` list raises ValueError. */
  method CollectUsage(response: Response) returns (r: Result<UsageRecords>)
    ensures response.data.None? ==> r.Ok? && r.value.records == []
    ensures response.data.Some? ==> (r.Ok? <==> AllHaveValues(response.data.value))
    ensures response.data.Some? && r.Ok? ==> r.value.records == Reduce(response.data.value)
    ensures r.Ok? ==> fresh(r.value) && r.value.Valid()
    ensures r.Err? ==> r.error == ValueError
    ensures r.Ok? <==> UsageOf(response).Ok?
    ensures r.Ok? ==> r.value.records == UsageOf(response).value
  {
    var usage := new UsageRecords();
    if response.data.None? {
      return Ok(usage);
    }
    var series := response.data.value;
    for i := 0 to |series|
      invariant AllHaveValues(series[..i])
      invariant usage.records == Reduce(series[..i]) && usage.Valid()
      invariant fresh(usage)
    {
      var s := series[i];
      if |s.values| == 0 {
        assert !AllHaveValues(series) by {
          assert s in series;
        }
        return Err(ValueError);
      }
      var m := MaxValue(s.values);
      ReduceSnoc(series, i);
      usage.Set(MicroserviceOf(s.pod), s.pod, m);
    }
    assert series[..|series|] == series;
    return Ok(usage);
  }

  /** The step from `series[..i]` to `series[..i + 1]`. */
  lemma ReduceSnoc(series: seq<Series>, i: nat)
    requires i < |series| && AllHaveValues(series[..i]) && |series[i].values| > 0
    ensures AllHaveValues(series[..i + 1])
    ensures Reduce(series[..i + 1]) ==
      SetUsage(Reduce(series[..i]), MicroserviceOf(series[i].pod), series[i].pod, MaxValue(series[i].values))
  {
    assert series[..i + 1][..i] == series[..i];
    forall t <- series[..i + 1] ensures |t.values| > 0 {
      if t != series[i] {
        assert t in series[..i];
      }
    }
  }
}
