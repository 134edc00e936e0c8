/** The earlier data collector (data_collector/hardware_collector.py and
    data_collector/models.py). Its `UsageRecords.set`/`get` and its trace
    collector are the same as the AEFM package's and are modelled by the Usage
    and JaegerCollector modules; this module holds what differs: how a usage
    series is reduced, and how the records become a table. */
module LegacyCollectors {
  import opened Wrappers
  import opened OrderedMaps
  import opened Usage
  import opened PromHardware

  /** What the earlier `collect_cpu_usage` / `collect_mem_usage` yield for a
      decoded response. A falsy `data` or `result` gives no records. Otherwise the
      first series already fails: `float` of a `[timestamp, value]` pair raises
      TypeError, and with no pairs at all `max([])` raises ValueError. */
  function LegacyUsageOf(response: Response): (r: Result<Records>)
    ensures r.Ok? <==> response.data.None? || |response.data.value| == 0
    ensures r.Ok? ==> r.value == []
    ensures r.Err? ==> (r.error == ValueError <==> |response.data.value[0].values| == 0)
  {
    match response.data
    case None => Ok([])
    case Some(series) =>
      if |series| == 0 then Ok([])
      else if |series[0].values| == 0 then Err(ValueError)
      else Err(TypeError)
  }

  /** The earlier `collect_cpu_usage` / `collect_mem_usage` after the fetch. */
  method CollectUsageAsWritten(response: Response) returns (r: Result<UsageRecords>)
    ensures r.Ok? <==> LegacyUsageOf(response).Ok?
    ensures r.Ok? ==> fresh(r.value) && r.value.records == [] && r.value.Valid()
    ensures r.Err? ==> LegacyUsageOf(response) == Err(r.error)
  {
    var usage := new UsageRecords();
    if response.data.None? {
      return Ok(usage);
    }
    var series := response.data.value;
    // The loop of the source over the series, kept as a loop: its first
    // iteration always returns, so `i` never leaves 0.
    for i := 0 to |series|
      invariant i == 0
    {
      if |series[i].values| > 0 {
        // `float(v)` of the first `[timestamp, value]` pair
        return Err(TypeError);
      }
      // `max` of the empty list of converted values
      return Err(ValueError);
    }
    return Ok(usage);
  }

  /** On every response that carries a series with values, the earlier reduction
      raises, while the AEFM reduction records each pod with the maximum of its
      values: the last series' pod, for one, is recorded with its maximum. */
  lemma PairsDoNotConvert(response: Response)
    requires response.data.Some? && |response.data.value| > 0
    requires AllHaveValues(response.data.value)
    ensures LegacyUsageOf(response) == Err(TypeError)
    ensures UsageOf(response).Ok?
    ensures var series := response.data.value;
      var last := series[|series| - 1];
      Lookup(UsageOf(response).value, MicroserviceOf(last.pod), last.pod) == Some(MaxValue(last.values))
  {
    var series := response.data.value;
    assert series[0] in series;
    LastSeriesWins(series, |series| - 1);
  }

  /** The earlier `to_pandas`: per microservice, `pd.DataFrame(pods, usages,
      columns=["pod", "usage"])` passes the pod names as the only data column
      (the usages become the row index) while naming two columns, which raises
      ValueError as soon as there is a row; concatenating no tables raises
      ValueError too. So records holding any entry never give the documented
      `microservice, pod, usage` table. */
  method ToPandasAsWritten(usage: UsageRecords) returns (r: Result<seq<UsageRow>>)
    ensures |usage.records| == 0 ==> r == Err(ValueError)
    ensures (exists i :: 0 <= i < |usage.records| && |usage.records[i].1| > 0) ==> r == Err(ValueError)
    ensures usage.Valid() ==> r == Err(ValueError)
    ensures r.Ok? ==> r.value == []
  {
    var records := usage.records;
    var frames: seq<seq<UsageRow>> := [];
    for i := 0 to |records|
      invariant |frames| == i
      invariant forall k :: 0 <= k < i ==> |records[k].1| == 0 && frames[k] == []
    {
      var inner := records[i].1;
      if |inner| > 0 {
        // one data column under two column labels
        return Err(ValueError);
      }
      frames := frames + [[]];
    }
    if |frames| == 0 {
      return Err(ValueError);
    }
    assert |records[0].1| == 0;
    return Ok([]);
  }
}
