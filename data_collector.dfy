/** `BaseDataCollector` (AEFM/data_collector/base.py): one collection run goes
    throughput → traces → hardware → save, returning early when a stage raises.
    The throughput collector, the Jaeger and Prometheus fetches and the CSV
    appends are collaborators, passed in as `Sources`; the four CSV files are
    sequences of rows held by the collector. */
module DataCollector {
  import opened Wrappers
  import opened Seqs
  import opened OrderedMaps
  import opened Spans
  import opened Decomposer
  import opened Usage
  import opened PromHardware
  import opened SpanGraph
  import opened JaegerCollector

  /** The collaborators of one run: the injected throughput and trace collectors,
      the Prometheus answers the hardware collector reduces, and how many of the
      four CSV appends succeed before one raises (`appendsBeforeFailure`, None:
      all of them). */
  datatype Sources = Sources(
    throughput: string -> Result<real>,
    collectTrace: TestCaseData -> Result<Option<seq<Edge>>>,
    processTrace: Option<seq<Edge>> -> Result<(seq<StatRow>, seq<DecomposedEdge>)>,
    cpu: (seq<string>, real, real) -> Result<Response>,
    mem: (seq<string>, real, real) -> Result<Response>,
    appendsBeforeFailure: Option<nat>)

  datatype Stage = ThroughputStage | TraceStage | HardwareStage | SaveStage

  /** A call made to a collaborator. */
  datatype Request =
    | ThroughputRequest(name: string)
    | TraceRequest(startTime: real, endTime: real, operation: Option<string>)
    | CpuRequest(microservices: seq<string>, startTime: real, endTime: real)
    | MemRequest(microservices: seq<string>, startTime: real, endTime: real)

  datatype LogEntry = Failure(name: string, stage: Stage) | Success(name: string)

  /** A row of `cpu_data.merge(mem_data)`. */
  datatype HardwareRow = HardwareRow(microservice: string, pod: string, cpuUsage: real, memUsage: real)

  /** A stored row with the test case's additional columns. */
  datatype Stored<T> = Stored(row: T, extra: OMap<string, string>)

  datatype Tables = Tables(
    statistical: seq<StatRow>,
    raw: seq<DecomposedEdge>,
    hardware: seq<HardwareRow>,
    throughput: real)

  datatype Outcome = Failed(stage: Stage) | Collected(tables: Tables)

  // ---------------------------------------------------------------------------
  // The stages as functions of the sources

  /** The trace stage: `collect_trace` then `process_trace`. */
  function TraceTables(tc: TestCaseData, src: Sources): Result<(seq<StatRow>, seq<DecomposedEdge>)>
  {
    match src.collectTrace(tc)
    case Err(e) => Err(e)
    case Ok(traces) => src.processTrace(traces)
  }

  /** `JaegerTraceCollector.collect_trace` over a fetch of the test case's window. */
  function JaegerCollect(fetch: TestCaseData -> Result<seq<Trace>>): TestCaseData -> Result<Option<seq<Edge>>>
  {
    tc => CollectTrace(fetch(tc))
  }

  /** `JaegerTraceCollector.process_trace`; given None it fails on `None.columns`. */
  function JaegerProcess(collected: Option<seq<Edge>>): Result<(seq<StatRow>, seq<DecomposedEdge>)>
  {
    match collected
    case None => Err(AttributeError)
    case Some(edges) => ProcessTrace(edges)
  }

  /** `statistical_data["microservice"].dropna().unique().tolist()`. */
  function RequestedMicroservices(stat: seq<StatRow>): (ms: seq<string>)
    ensures NoDup(ms)
    ensures forall m <- ms :: exists r <- stat :: r.microservice == m
    ensures forall r <- stat :: r.microservice in ms
  {
    var column := seq(|stat|, i requires 0 <= i < |stat| => stat[i].microservice);
    assert forall m <- column :: exists r <- stat :: r.microservice == m by {
      forall m <- column ensures exists r <- stat :: r.microservice == m {
        var i :| 0 <= i < |column| && column[i] == m;
        assert stat[i] in stat;
      }
    }
    assert forall r <- stat :: r.microservice in column by {
      forall r <- stat ensures r.microservice in column {
        var i :| 0 <= i < |stat| && stat[i] == r;
        assert column[i] == r.microservice;
      }
    }
    Distinct(column)
  }

  /** `collect_*_usage(...).to_pandas()`: a fetch failure, a raising reduction or
      empty records (nothing to concatenate) all fail the stage. */
  function UsageTable(fetched: Result<Response>): Result<seq<UsageRow>>
  {
    match fetched
    case Err(e) => Err(e)
    case Ok(response) =>
      match UsageOf(response)
      case Err(e) => Err(e)
      case Ok(recs) => if |recs| == 0 then Err(ValueError) else Ok(Rows(recs))
  }

  /** `cpu_data.merge(mem_data)`: inner join on `(microservice, pod)`, cpu order. */
  function MergeUsage(cpu: seq<UsageRow>, mem: seq<UsageRow>): seq<HardwareRow>
  {
    if |cpu| == 0 then []
    else
      var c := cpu[0];
      var matches := Filter(mem, (m: UsageRow) => m.microservice == c.microservice && m.pod == c.pod);
      seq(|matches|, j requires 0 <= j < |matches| => HardwareRow(c.microservice, c.pod, c.usage, matches[j].usage))
        + MergeUsage(cpu[1..], mem)
  }

  /** The hardware table has exactly the pods present in both usage tables. */
  lemma {:induction false} MergeUsageRows(cpu: seq<UsageRow>, mem: seq<UsageRow>, h: HardwareRow)
    ensures h in MergeUsage(cpu, mem) <==>
      UsageRow(h.microservice, h.pod, h.cpuUsage) in cpu && UsageRow(h.microservice, h.pod, h.memUsage) in mem
  {
    if |cpu| > 0 {
      MergeUsageRows(cpu[1..], mem, h);
      var c := cpu[0];
      var matches := Filter(mem, (m: UsageRow) => m.microservice == c.microservice && m.pod == c.pod);
      var head := seq(|matches|, j requires 0 <= j < |matches| => HardwareRow(c.microservice, c.pod, c.usage, matches[j].usage));
      assert MergeUsage(cpu, mem) == head + MergeUsage(cpu[1..], mem);
      var m := UsageRow(h.microservice, h.pod, h.memUsage);
      if h in head {
        var j :| 0 <= j < |head| && head[j] == h;
        assert matches[j] in matches;
        assert matches[j] == m;
      }
      if c == UsageRow(h.microservice, h.pod, h.cpuUsage) && m in mem {
        assert m in matches;
        var j :| 0 <= j < |matches| && matches[j] == m;
        assert head[j] == h;
      }
      assert forall x <- cpu :: x == c || x in cpu[1..];
    }
  }

  /** The hardware stage: cpu first, then memory, then the join. */
  function HardwareTable(tc: TestCaseData, src: Sources, ms: seq<string>): Result<seq<HardwareRow>>
  {
    match UsageTable(src.cpu(ms, tc.startTime, tc.endTime))
    case Err(e) => Err(e)
    case Ok(cpu) =>
      match UsageTable(src.mem(ms, tc.startTime, tc.endTime))
      case Err(e) => Err(e)
      case Ok(mem) => Ok(MergeUsage(cpu, mem))
  }

  /** What a run computes before saving: the first failing stage, or the four tables.
      The requests made are those of the stages reached: one when the throughput
      fails, two when the traces fail, all four when the tables are collected. */
  function Run(tc: TestCaseData, src: Sources): (r: Outcome)
    ensures r != Failed(SaveStage)
    ensures r == Failed(ThroughputStage) ==> |Requests(tc, src)| == 1
    ensures r == Failed(TraceStage) ==> |Requests(tc, src)| == 2
    ensures r == Failed(HardwareStage) ==> |Requests(tc, src)| >= 3
    ensures r.Collected? ==> |Requests(tc, src)| == 4 && r.tables.throughput == src.throughput(tc.name).value
  {
    match src.throughput(tc.name)
    case Err(_) => Failed(ThroughputStage)
    case Ok(tp) =>
      match TraceTables(tc, src)
      case Err(_) => Failed(TraceStage)
      case Ok(st) =>
        match HardwareTable(tc, src, RequestedMicroservices(st.0))
        case Err(_) => Failed(HardwareStage)
        case Ok(hw) => Collected(Tables(st.0, st.1, hw, tp))
  }

  /** The collaborator calls a run makes, in order. */
  function Requests(tc: TestCaseData, src: Sources): seq<Request>
  {
    var tp := [ThroughputRequest(tc.name)];
    if src.throughput(tc.name).Err? then tp
    else
      var tr := tp + [TraceRequest(tc.startTime, tc.endTime, tc.operation)];
      match TraceTables(tc, src)
      case Err(_) => tr
      case Ok(st) =>
        var ms := RequestedMicroservices(st.0);
        var cpu := tr + [CpuRequest(ms, tc.startTime, tc.endTime)];
        if UsageTable(src.cpu(ms, tc.startTime, tc.endTime)).Err? then cpu
        else cpu + [MemRequest(ms, tc.startTime, tc.endTime)]
  }

  /** The position of a request's stage in the fixed order. */
  function Rank(r: Request): nat
  {
    match r
    case ThroughputRequest(_) => 0
    case TraceRequest(_, _, _) => 1
    case CpuRequest(_, _, _) => 2
    case MemRequest(_, _, _) => 3
  }

  /** Stages run strictly in the order throughput, traces, cpu, memory; the hardware
      requests carry the microservices of the statistical table. */
  lemma RequestsInOrder(tc: TestCaseData, src: Sources)
    ensures var rs := Requests(tc, src);
      1 <= |rs| <= 4 && forall i :: 0 <= i < |rs| ==> Rank(rs[i]) == i
    ensures var rs := Requests(tc, src);
      forall i :: 2 <= i < |rs| ==>
        TraceTables(tc, src).Ok? && rs[i].microservices == RequestedMicroservices(TraceTables(tc, src).value.0)
  {
  }

  /** A run fails at the first stage that raises; a later stage is not reached. */
  lemma FirstFailureStops(tc: TestCaseData, src: Sources)
    ensures src.throughput(tc.name).Err? ==>
      Run(tc, src) == Failed(ThroughputStage) && Requests(tc, src) == [ThroughputRequest(tc.name)]
    ensures Run(tc, src) == Failed(TraceStage) ==>
      src.throughput(tc.name).Ok? && TraceTables(tc, src).Err? && |Requests(tc, src)| == 2
    ensures Run(tc, src).Collected? <==>
      src.throughput(tc.name).Ok? && TraceTables(tc, src).Ok? &&
      HardwareTable(tc, src, RequestedMicroservices(TraceTables(tc, src).value.0)).Ok?
  {
  }

  /** With the Jaeger collector, an empty Jaeger answer fails the trace stage:
      `process_trace` gets None. */
  lemma NoTracesFailsTraceStage(tc: TestCaseData, src: Sources, fetch: TestCaseData -> Result<seq<Trace>>)
    requires src.collectTrace == JaegerCollect(fetch) && src.processTrace == JaegerProcess
    requires src.throughput(tc.name).Ok? && fetch(tc) == Ok([])
    ensures Run(tc, src) == Failed(TraceStage)
    ensures |Requests(tc, src)| == 2
  {
    assert src.collectTrace(tc) == Ok(None);
  }

  /** With the Jaeger collector, the statistical and raw tables a run saves are
      `process_trace` of the flattened traces. */
  lemma JaegerTables(tc: TestCaseData, src: Sources, fetch: TestCaseData -> Result<seq<Trace>>)
    requires src.collectTrace == JaegerCollect(fetch) && src.processTrace == JaegerProcess
    requires Run(tc, src).Collected?
    ensures fetch(tc).Ok? && |fetch(tc).value| > 0 && LoadFromJson(fetch(tc).value).Ok?
    ensures var t := Run(tc, src).tables;
      Ok((t.statistical, t.raw)) == ProcessTrace(LoadFromJson(fetch(tc).value).value)
  {
    assert TraceTables(tc, src).Ok?;
    assert src.collectTrace(tc) == CollectTrace(fetch(tc));
  }

  /** A Prometheus answer with no series fails the hardware stage, because
      `to_pandas` has nothing to concatenate. */
  lemma NoUsageFailsHardwareStage(tc: TestCaseData, src: Sources)
    requires src.throughput(tc.name).Ok? && TraceTables(tc, src).Ok?
    requires src.cpu(RequestedMicroservices(TraceTables(tc, src).value.0), tc.startTime, tc.endTime) == Ok(Response(None))
    ensures Run(tc, src) == Failed(HardwareStage)
  {
  }

  // ---------------------------------------------------------------------------
  // Saving

  function Extra(tc: TestCaseData): OMap<string, string>
  {
    match tc.additionalColumns
    case None => []
    case Some(cols) => cols
  }

  /** `table.assign(**additional_columns)`: every row gains the same columns. */
  function WithColumns<T>(rows: seq<T>, extra: OMap<string, string>): (r: seq<Stored<T>>)
    ensures |r| == |rows|
    ensures forall i :: 0 <= i < |rows| ==> r[i].row == rows[i] && r[i].extra == extra
  {
    seq(|rows|, i requires 0 <= i < |rows| => Stored(rows[i], extra))
  }

  /** The number of appends that take effect. */
  function Appends(src: Sources): (k: nat)
    ensures k <= 4
    ensures src.appendsBeforeFailure.None? ==> k == 4
  {
    match src.appendsBeforeFailure
    case None => 4
    case Some(n) => if n < 4 then n else 4
  }

  /** `data_path` and `max_processes` are what `__getstate__` hands to a worker:
      everything but `proc_pool`. */
  datatype PickledState = PickledState(dataPath: string, maxProcesses: int)

  class BaseDataCollector {
    const dataPath: string
    const maxProcesses: int
    var procPool: Option<nat>
    /** Pools are numbered in creation order; this is the next number. */
    var poolsCreated: nat
    var statisticalStore: seq<Stored<StatRow>>
    var rawStore: seq<Stored<DecomposedEdge>>
    var hardwareStore: seq<Stored<HardwareRow>>
    var throughputStore: seq<Stored<real>>
    var log: seq<LogEntry>
    var requests: seq<Request>

    constructor(dataPath: string, maxProcesses: int)
      ensures this.dataPath == dataPath && this.maxProcesses == maxProcesses
      ensures procPool == None && poolsCreated == 0
      ensures statisticalStore == [] && rawStore == [] && hardwareStore == [] && throughputStore == []
      ensures log == [] && requests == []
    {
      this.dataPath := dataPath;
      this.maxProcesses := maxProcesses;
      procPool := None;
      poolsCreated := 0;
      statisticalStore := [];
      rawStore := [];
      hardwareStore := [];
      throughputStore := [];
      log := [];
      requests := [];
    }

    /** `__getstate__`. */
    function GetState(): (s: PickledState)
      reads this
      ensures s.dataPath == dataPath && s.maxProcesses == maxProcesses
    {
      PickledState(dataPath, maxProcesses)
    }

    /** Records a collaborator call. */
    method Call(r: Request)
      modifies this
      ensures requests == old(requests) + [r]
      ensures procPool == old(procPool) && poolsCreated == old(poolsCreated)
      ensures statisticalStore == old(statisticalStore) && rawStore == old(rawStore)
      ensures hardwareStore == old(hardwareStore) && throughputStore == old(throughputStore)
      ensures log == old(log)
    {
      requests := requests + [r];
    }

    /** The hardware stage as written: cpu records, their table, then memory. */
    method CollectHardware(tc: TestCaseData, src: Sources, ms: seq<string>) returns (r: Result<seq<HardwareRow>>)
      modifies this
      ensures r == HardwareTable(tc, src, ms)
      ensures requests == old(requests) + [CpuRequest(ms, tc.startTime, tc.endTime)] +
        (if UsageTable(src.cpu(ms, tc.startTime, tc.endTime)).Err? then [] else [MemRequest(ms, tc.startTime, tc.endTime)])
      ensures procPool == old(procPool) && poolsCreated == old(poolsCreated)
      ensures statisticalStore == old(statisticalStore) && rawStore == old(rawStore)
      ensures hardwareStore == old(hardwareStore) && throughputStore == old(throughputStore)
      ensures log == old(log)
    {
      Call(CpuRequest(ms, tc.startTime, tc.endTime));
      var cpu := TableOf(src.cpu(ms, tc.startTime, tc.endTime));
      if cpu.Err? {
        return Err(cpu.error);
      }
      Call(MemRequest(ms, tc.startTime, tc.endTime));
      var mem := TableOf(src.mem(ms, tc.startTime, tc.endTime));
      if mem.Err? {
        return Err(mem.error);
      }
      return Ok(MergeUsage(cpu.value, mem.value));
    }

    /** The stores and the log after one run: a failed stage appends nothing and logs
        the failure; otherwise the save stage appends. */
    twostate predicate StoredRun(tc: TestCaseData, src: Sources)
      reads this
    {
      (Run(tc, src).Failed? ==>
        && statisticalStore == old(statisticalStore) && rawStore == old(rawStore)
        && hardwareStore == old(hardwareStore) && throughputStore == old(throughputStore)
        && log == old(log) + [Failure(tc.name, Run(tc, src).stage)]) &&
      (Run(tc, src).Collected? ==>
        var t := Run(tc, src).tables;
        var k := Appends(src);
        && statisticalStore == old(statisticalStore) + (if k >= 1 then WithColumns(t.statistical, Extra(tc)) else [])
        && rawStore == old(rawStore) + (if k >= 2 then WithColumns(t.raw, Extra(tc)) else [])
        && hardwareStore == old(hardwareStore) + (if k >= 3 then WithColumns(t.hardware, Extra(tc)) else [])
        && throughputStore == old(throughputStore) + (if k >= 4 then WithColumns([t.throughput], Extra(tc)) else [])
        && log == old(log) + (if k < 4 then [Failure(tc.name, SaveStage)] else []) + [Success(tc.name)])
    }

    /** `collect(test_case_data)`. */
    method Collect(tc: TestCaseData, src: Sources)
      modifies this
      ensures requests == old(requests) + Requests(tc, src)
      ensures procPool == old(procPool) && poolsCreated == old(poolsCreated)
      ensures StoredRun(tc, src)
    {
      Call(ThroughputRequest(tc.name));
      var tp := src.throughput(tc.name);
      if tp.Err? {
        assert Requests(tc, src) == [ThroughputRequest(tc.name)];
        log := log + [Failure(tc.name, ThroughputStage)];
        return;
      }

      Call(TraceRequest(tc.startTime, tc.endTime, tc.operation));
      var tables := TraceTables(tc, src);
      if tables.Err? {
        assert Requests(tc, src) == [ThroughputRequest(tc.name), TraceRequest(tc.startTime, tc.endTime, tc.operation)];
        log := log + [Failure(tc.name, TraceStage)];
        return;
      }
      var stat := tables.value.0;
      var raw := tables.value.1;

      var ms := RequestedMicroservices(stat);
      var hw := CollectHardware(tc, src, ms);
      assert requests == old(requests) + Requests(tc, src);
      if hw.Err? {
        assert Run(tc, src) == Failed(HardwareStage);
        log := log + [Failure(tc.name, HardwareStage)];
        return;
      }

      assert Run(tc, src) == Collected(Tables(stat, raw, hw.value, tp.value));
      Save(tc, src, Tables(stat, raw, hw.value, tp.value));
    }

    /** The save stage: each store gains the table with the additional columns, in
        the order statistical, raw, hardware, throughput, until an append raises;
        success is logged either way. */
    method Save(tc: TestCaseData, src: Sources, t: Tables)
      modifies this
      ensures requests == old(requests) && procPool == old(procPool) && poolsCreated == old(poolsCreated)
      ensures var k := Appends(src);
        && statisticalStore == old(statisticalStore) + (if k >= 1 then WithColumns(t.statistical, Extra(tc)) else [])
        && rawStore == old(rawStore) + (if k >= 2 then WithColumns(t.raw, Extra(tc)) else [])
        && hardwareStore == old(hardwareStore) + (if k >= 3 then WithColumns(t.hardware, Extra(tc)) else [])
        && throughputStore == old(throughputStore) + (if k >= 4 then WithColumns([t.throughput], Extra(tc)) else [])
        && log == old(log) + (if k < 4 then [Failure(tc.name, SaveStage)] else []) + [Success(tc.name)]
    {
      var extra := Extra(tc);
      var k := Appends(src);
      if k >= 1 {
        statisticalStore := statisticalStore + WithColumns(t.statistical, extra);
      }
      if k >= 2 {
        rawStore := rawStore + WithColumns(t.raw, extra);
      }
      if k >= 3 {
        hardwareStore := hardwareStore + WithColumns(t.hardware, extra);
      }
      if k >= 4 {
        throughputStore := throughputStore + WithColumns([t.throughput], extra);
      }
      if k < 4 {
        log := log + [Failure(tc.name, SaveStage)];
      }
      log := log + [Success(tc.name)];
    }

    /** `collect_async`: creates the pool on first use, then submits one run,
        which the model performs at once. */
    method CollectAsync(tc: TestCaseData, src: Sources)
      modifies this
      ensures old(procPool).None? ==> procPool == Some(old(poolsCreated)) && poolsCreated == old(poolsCreated) + 1
      ensures old(procPool).Some? ==> procPool == old(procPool) && poolsCreated == old(poolsCreated)
      ensures requests == old(requests) + Requests(tc, src)
      ensures StoredRun(tc, src)
    {
      if procPool.None? {
        procPool := Some(poolsCreated);
        poolsCreated := poolsCreated + 1;
      }
      Collect(tc, src);
    }

    /** `wait`: closes and joins any pool, then always leaves a fresh one. */
    method Wait()
      modifies this
      ensures procPool == Some(old(poolsCreated)) && poolsCreated == old(poolsCreated) + 1
      ensures statisticalStore == old(statisticalStore) && rawStore == old(rawStore)
      ensures hardwareStore == old(hardwareStore) && throughputStore == old(throughputStore)
      ensures log == old(log) && requests == old(requests)
    {
      procPool := Some(poolsCreated);
      poolsCreated := poolsCreated + 1;
    }
  }

  /** `collect_*_usage(...).to_pandas()` on the objects. */
  method TableOf(fetched: Result<Response>) returns (r: Result<seq<UsageRow>>)
    ensures r == UsageTable(fetched)
  {
    if fetched.Err? {
      return Err(fetched.error);
    }
    var usage := CollectUsage(fetched.value);
    if usage.Err? {
      return Err(usage.error);
    }
    r := usage.value.ToPandas();
  }

  /** Without additional columns the stored rows carry no extra columns. */
  lemma NoAdditionalColumns<T>(tc: TestCaseData, rows: seq<T>)
    requires tc.additionalColumns.None?
    ensures forall s <- WithColumns(rows, Extra(tc)) :: s.extra == []
    ensures |WithColumns(rows, Extra(tc))| == |rows|
  {
  }
}
