# AEFM core, modelled in Dafny

AEFM drives microservice experiments on Kubernetes. It reads a YAML
configuration and generates a grid of test cases. It rewrites the
application's Kubernetes manifests for each test case and waits for the pods.
Over a fixed workflow of events, it collects Jaeger traces and Prometheus
usage. It then decomposes each parent span's latency into its exclusive part.
This project models that core as Dafny values, functions, classes and
methods, and proves what the code promises about it.

The modules follow the source files:

| module | file(s) | form |
|---|---|---|
| `Spans`, `SpanGraph` | utils/trace_processor.py `load_from_json` | pure (dataframe joins as sequence comprehensions) |
| `Steps`, `Decomposer` | utils/trace_processor.py `exact_parent_duration` | the step loop is a method; the rest is functions |
| `Aggregation` | utils/trace_processor.py `decouple_parent_and_child` | pure (group-by, mean, pandas' linear quantile, `drop_duplicates`) |
| `JaegerCollector` | AEFM/data_collector/jaeger_trace_collector.py, data_collector/trace_collector.py | pure |
| `Usage` | AEFM/data_collector/models.py | a class over an ordered dictionary of dictionaries |
| `PromHardware` | AEFM/data_collector/prom_hardware_collector.py | a method filling a `UsageRecords` |
| `DataCollector` | AEFM/data_collector/base.py | a class whose stores and pool change; the run is a function of the collaborators' answers |
| `YamlDocs`, `YamlEdit` | AEFM/utils/kubernetes_YAMLs.py `search_path`, `_edit`, `_mapping_edit`, `_conditional_edit`; AEFM/cli/utils.py `update` | pure functions over YAML values |
| `KubernetesYamls` | AEFM/utils/kubernetes_YAMLs.py `KubernetesYAMLs` | a class holding the document list |
| `PodSpecs`, `Nodes` | models/pod_spec.py, models/node.py | pure |
| `Configuration` | AEFM/configs/\_\_init\_\_.py | a class filled section by section |
| `TestCaseModel` | AEFM/models/test_case.py | classes with in-place setters |
| `TestCasesModel` | AEFM/models/test_cases.py | a class with a generation cache |
| `Timer` | AEFM/utils/timer.py | a registry class and the `parser` function |
| `Manager` | AEFM/manager/interfaces.py, AEFM/manager/base.py | singleton registries as classes |
| `PodWait` | AEFM/utils/kubernetes.py, utils/kubernetes.py | polling loop as a method |
| `LegacyTestCase`, `LegacyManager`, `LegacyCollectors` | models/test_case.py, manager/interfaces.py, experiment/experiement_manager.py, data_collector/hardware_collector.py, data_collector/models.py | the earlier copies, where they differ |

The repository keeps an earlier copy of several files at its top level. Where
that copy is identical to the AEFM one, the same member models both, and both
are cited in the table. This holds for the trace collector, the
`UsageRecords` `set`/`get`, the pod conditions and `cli/utils.update` versus
`_edit`. Where the copy differs, a `Legacy*` module models it.

A Python exception is an `Err` of the `Wrappers.PyError` datatype, named after
the exception class. Python dictionaries keep insertion order, so they are
association lists (`OrderedMaps.OMap`). Jaeger, Prometheus, wrk, the
Kubernetes API, the clock and the file system are parameters: a fetched
answer is given as an argument, and poll `k` of a wait sees `observe(k)`.

## Model

| member | source | states |
|---|---|---|
| SpanGraph.Hostnames | utils/trace_processor.py:36-44 | every value listed comes from a `hostname` tag |
| SpanGraph.PodOf | utils/trace_processor.py:36-44 | a tag list gives the value of its first `hostname` tag; a value that is not a list gives `""`; a list without a hostname is an IndexError, and only then |
| SpanGraph.HostnamesFirst | utils/trace_processor.py:39 | the hostname list is empty exactly when no tag is a hostname, and otherwise starts with the first hostname tag |
| SpanGraph.RootJoinsMember | utils/trace_processor.py:120 | the merge with the root spans keeps a row exactly for each root span of the child's trace |
| SpanGraph.TraceJoinsMember | utils/trace_processor.py:119-120 | the merges on `traceId` keep a row exactly for each trace and root span sharing the child's trace id |
| SpanGraph.ChildJoinsMember | utils/trace_processor.py:99-101 | the merge on (`parentId`, `traceId`) pairs a parent with exactly the spans whose first reference names it in the same trace |
| SpanGraph.JoinsExactly | utils/trace_processor.py:56-120 | the joined rows are exactly the (parent, child, root) triples of one trace where the child's first reference names the parent and the root has no references |
| SpanGraph.EdgeOf | utils/trace_processor.py:99-128 | an edge carries the child's trace, start and duration, the parent's id and duration, the root's start as `trace_time`, and `end_time = start_time + child_duration`; both processes are looked up in the child's own trace, and it fails only on a process missing there or a process without a hostname |
| SpanGraph.CollectAll | utils/trace_processor.py:121-129 | a non-empty column of row results succeeds exactly when every row does, with every value in order; otherwise it fails with some row's error (the empty column is rejected before, by `SpanGraph.LoadFromJson`) |
| SpanGraph.LoadFromJson | utils/trace_processor.py:6-165 | a process of any trace whose tag list holds no hostname is an IndexError; no spans at all is a KeyError; spans without any (parent, child, root) combination is a ValueError (`assign` of the frames the empty `apply` returns); a loaded table has one edge per combination and is never empty |
| SpanGraph.LoadedEdgesJoin | utils/trace_processor.py:99-128 | every loaded edge comes from a joinable (parent, child, root) triple, and its end time is its start plus its duration |
| SpanGraph.JoinsLoaded | utils/trace_processor.py:99-128 | conversely, every joinable triple gives an edge of the loaded table |
| SpanGraph.NoRootNoEdges | utils/trace_processor.py:120 | a trace without a root span gives no edge (the inner merge with the root spans drops it) |
| Steps.StepsOf | utils/trace_processor.py:198-220 | the step list after the final append always has at least one step |
| Steps.BuildSteps | utils/trace_processor.py:198-220 | the loop that mutates the open step and appends the closed ones computes `StepsOf` |
| Steps.ChildIds | utils/trace_processor.py:209 | one child id per child, in order |
| Steps.InvJoin | utils/trace_processor.py:208-210 | a child starting no later than the open step's end joins it and keeps the loop invariant |
| Steps.InvOpen | utils/trace_processor.py:211-218 | a child starting after the open step's end closes it, opens a new step and keeps the loop invariant |
| Steps.ScanFirst | utils/trace_processor.py:211-218 | the first child opens a proper step holding it alone and keeps the loop invariant |
| Steps.ScanCurrentStart | utils/trace_processor.py:207-218 | for start-ordered children the open step starts no later than the last child read |
| Steps.ScanKeepsInv | utils/trace_processor.py:207-218 | for start-ordered children the invariant holds after the whole loop |
| Steps.ChainedOrdered | utils/trace_processor.py:207-218 | chained proper steps are strictly ordered: each ends before any later one starts |
| Steps.StepsPartition | utils/trace_processor.py:198-220 | for start-ordered children the steps are non-empty, ordered and pairwise disjoint, and their members list every child once, in input order |
| Steps.ScanStartsAtZero | utils/trace_processor.py:200-218 | the open step never keeps the `-1` sentinel once a child was read, covers the last child's end, and has it as a member |
| Steps.ScanExtends | utils/trace_processor.py:207-218 | a later loop state keeps every closed step and extends the earlier open step in place |
| Steps.ChildInItsStep | utils/trace_processor.py:207-220 | every child is a member of the step it joined, and that step spans its interval |
| Decomposer.StepEntries | utils/trace_processor.py:221-229 | step `i` contributes one entry per member, each carrying the step's end minus start and the index `i` |
| Decomposer.WithExact | utils/trace_processor.py:232-235 | every merged row gets `exact_parent_duration` = its parent duration minus the group total, one row per input row |
| Decomposer.EntryOfStep | utils/trace_processor.py:221-229 | every entry names a member of the step it indexes and that step's duration |
| Decomposer.EntryForMember | utils/trace_processor.py:221-229 | conversely, every member of every step has its entry |
| Decomposer.MatchesForMember | utils/trace_processor.py:231 | a child's matches are exactly the entries with its id, merged into it |
| Decomposer.MergeOnChildMember | utils/trace_processor.py:231 | the merge holds exactly the matches of its children |
| Decomposer.RowOfGroup | utils/trace_processor.py:190-237 | every output row of a group is one of its children, tagged with a step that has it as a member and with that step's duration, minus the group total |
| Decomposer.ChildHasRow | utils/trace_processor.py:190-237 | for start-ordered children every child gets a row carrying the step it joined |
| Decomposer.MemberIdsSingletons | utils/trace_processor.py:221-229 | with single-member steps, step `i`'s member is the `i`-th id |
| Decomposer.EntriesSingletons | utils/trace_processor.py:221-229 | with single-member steps, entry `i` is step `i`'s only member |
| Decomposer.MergeAligned | utils/trace_processor.py:231 | with distinct child ids and entries aligned with the children, the merge keeps one row per child in order |
| Decomposer.UniqueMatch | utils/trace_processor.py:231 | with distinct ids, a child matches exactly its aligned entry |
| Decomposer.SumAligned | utils/trace_processor.py:234 | summing the rows of aligned single-member steps sums the step durations |
| Decomposer.SequentialEntries | utils/trace_processor.py:207-229 | without parallel children, step `k` is child `k` alone |
| Decomposer.SequentialRows | utils/trace_processor.py:221-231 | without parallel children, merged row `k` is child `k` with step `k`'s duration |
| Decomposer.PerRowAgreesWhenSequential | utils/trace_processor.py:232-235 | when no two children overlap, subtracting per row (as written) and per step (as intended) give the same output |
| Decomposer.OverlapSteps | utils/trace_processor.py:207-220 | children [10,40] and [20,50] form one step [10,50] holding both |
| Decomposer.OverlapRows | utils/trace_processor.py:221-231 | both overlapping children get a merged row with the 40 µs of their shared step |
| Decomposer.ParallelChildrenCountedTwice | utils/trace_processor.py:232-235 | counted per row, the shared step is subtracted twice (80), leaving 20 µs instead of 60 µs under a 100 µs parent |
| Decomposer.InsertByStart | utils/trace_processor.py:239 | insertion keeps the elements, adding exactly the new one |
| Decomposer.SortByStart | utils/trace_processor.py:239 | `sort_values("start_time")` is a permutation |
| Decomposer.ConsSorted | utils/trace_processor.py:239 | an element starting no later than a sorted list extends it sorted |
| Decomposer.InsertKeepsOrder | utils/trace_processor.py:239 | insertion keeps a list sorted by start time |
| Decomposer.SortOrders | utils/trace_processor.py:239 | the sort orders by start time |
| Decomposer.ExactParentDuration | utils/trace_processor.py:239-253 | an empty table is a KeyError (no third index level for `drop(columns="level_2")`), and only it; every row kept has a positive exact parent duration |
| Decomposer.AllRows | utils/trace_processor.py:239-248 | every row of the grouped result is a row of its own `(trace_id, parent_id)` group's decomposition, and its edge an input edge |
| Decomposer.FilterKeepsOrder | utils/trace_processor.py:240 | selecting one group keeps the start-time order |
| Decomposer.GroupsSorted | utils/trace_processor.py:239-242 | each `(trace_id, parent_id)` group reaches the step pass in ascending start time |
| Decomposer.KeyOfMember | utils/trace_processor.py:240 | every edge's key is among the group keys |
| Decomposer.GroupRowInAllRows | utils/trace_processor.py:240-248 | every row of a group's decomposition is in the concatenated output |
| Decomposer.GroupSurvivesWhole | utils/trace_processor.py:251 | when a group shares one parent duration, the positivity filter keeps all of its rows or none |
| Decomposer.OutputRowOfGroup | utils/trace_processor.py:240-251 | every output row belongs to the decomposition of its own trace and parent, and its edge is an input edge |
| Aggregation.SortReals | utils/trace_processor.py:276 | sorting the observations keeps them as a multiset |
| Aggregation.SortRealsSorted | utils/trace_processor.py:276 | the observations are sorted before the order statistics are read |
| Aggregation.Rank | utils/trace_processor.py:276 | the lower order statistic for quantile `q` over `m + 1` values is `floor(q * m)`, at most `m` |
| Aggregation.InterpolatedWithin | utils/trace_processor.py:276 | linear interpolation between sorted observations stays within their bounds |
| Aggregation.QuantileWithin | utils/trace_processor.py:276 | a quantile lies between the smallest and the largest observation |
| Aggregation.QuantileOfConstant | utils/trace_processor.py:276 | with all observations equal (one observation in particular), every quantile is that value |
| Aggregation.QuantileExtremes | utils/trace_processor.py:276 | `q = 0` gives the minimum and `q = 1` the maximum |
| Aggregation.SumRealWithin | utils/trace_processor.py:274 | a sum of values within `[lo, hi]` lies within `[n * lo, n * hi]` |
| Aggregation.MeanWithin | utils/trace_processor.py:274 | a mean lies within the bounds of its values |
| Aggregation.Latencies | utils/trace_processor.py:272 | the parent view reads `exact_parent_duration` and the child view `child_duration`, row by row |
| Aggregation.TraceHasRows | utils/trace_processor.py:273 | every trace of a key's rows has at least one row, so its mean is defined |
| Aggregation.TraceMeans | utils/trace_processor.py:273-274 | one mean per trace of the key |
| Aggregation.KeyHasRows | utils/trace_processor.py:275-276 | every `(microservice, pod)` key has rows and per-trace means, so its quantile is defined |
| Aggregation.Perspective | utils/trace_processor.py:271-288 | one output row per `(microservice, pod)` key of the view |
| Aggregation.KeepFirst | utils/trace_processor.py:289-291 | `drop_duplicates(keep="first")` keeps only input rows |
| Aggregation.KeepFirstKeeps | utils/trace_processor.py:289-291 | the key of any input row survives |
| Aggregation.KeepFirstCovers | utils/trace_processor.py:289-291 | every key of the input survives |
| Aggregation.KeepFirstDistinct | utils/trace_processor.py:289-291 | no key survives twice |
| Aggregation.KeepFirstIsFirst | utils/trace_processor.py:289-291 | the row kept for a key is its first occurrence |
| Aggregation.KeepFirstKeys | utils/trace_processor.py:289-291 | every key survives once, as its first occurrence, and no key twice |
| Aggregation.FirstWithKeyFiltered | utils/trace_processor.py:289-291 | removing another key's rows does not change a key's first row |
| Aggregation.FirstWithKeyAppend | utils/trace_processor.py:289 | the first row with a key in the parent view stays first after the child view is appended |
| Aggregation.FirstWithKeyIn | utils/trace_processor.py:289-291 | a key's first row is a row with that key |
| Aggregation.Decouple | utils/trace_processor.py:256-292 | every output row is a row of the parent or the child view, every key of either view is kept, and no key twice |
| Aggregation.DecoupleKeys | utils/trace_processor.py:289-291 | the output has one row per key covered by either view, the parent view's row when both cover it, else the child view's |
| Aggregation.KeyMeansWithin | utils/trace_processor.py:271-288 | the per-trace means of one key stay within the bounds of the latencies read |
| Aggregation.PerspectiveWithin | utils/trace_processor.py:271-288 | if every latency a view reads lies in `[lo, hi]`, so does every latency it reports |
| Aggregation.SingleObservation | utils/trace_processor.py:271-288 | a key observed once reports that observation's latency |
| JaegerCollector.CollectTrace | AEFM/data_collector/jaeger_trace_collector.py:45-53 | a fetch failure propagates, an empty `data` gives None, otherwise the loaded edge table or its error |
| JaegerCollector.FilterSameKeys | utils/trace_processor.py:289-291 | tables with the same keys in the same order keep that after dropping one key |
| JaegerCollector.KeepFirstSameKeys | utils/trace_processor.py:289-291 | `drop_duplicates` of two tables with the same key sequence gives the same key sequence |
| JaegerCollector.DecoupleKeysIndependentOfPercentile | data_collector/trace_collector.py:99-108 | the rows of a decoupled table do not depend on the percentile, only their latencies do |
| JaegerCollector.UniqueMatchRow | AEFM/data_collector/jaeger_trace_collector.py:80 | with distinct keys, a row of the p95 table matches exactly itself |
| JaegerCollector.JoinAligned | AEFM/data_collector/jaeger_trace_collector.py:80 | joining tables with the same distinct keys pairs them row by row |
| JaegerCollector.PercentileJoin | AEFM/data_collector/jaeger_trace_collector.py:73-82 | the p50/p95 merge of one decomposition has one row per key, carrying both latencies |
| JaegerCollector.ProcessTrace | data_collector/trace_collector.py:99-108 | an empty edge table fails with the KeyError of `exact_parent_duration`, and only it; otherwise the raw table is the exact-parent-duration table, and the statistical table pairs its 0.5 and 0.95 decoupled tables row by row (the AEFM copy is AEFM/data_collector/jaeger_trace_collector.py:73-82) |
| JaegerCollector.MaxDuration | AEFM/data_collector/jaeger_trace_collector.py:86-92 | the maximum is attained and bounds every parent duration |
| JaegerCollector.RootTraceHasRows | AEFM/data_collector/jaeger_trace_collector.py:85-89 | every trace id among the root rows has rows |
| JaegerCollector.EndToEnd | AEFM/data_collector/jaeger_trace_collector.py:84-92 | one row per trace with a root row |
| JaegerCollector.EndToEndUnique | AEFM/data_collector/jaeger_trace_collector.py:89-92 | no trace appears twice |
| JaegerCollector.EndToEndCovers | AEFM/data_collector/jaeger_trace_collector.py:85 | every trace with a root row (a parent that is nobody's child) appears |
| JaegerCollector.EndToEndIsMax | AEFM/data_collector/jaeger_trace_collector.py:86-92 | a trace's duration is the largest `parent_duration` among its root rows |
| Usage.NewTestCaseData | AEFM/data_collector/models.py:5-30 | the name and window are kept; the additional columns and operation default to None |
| Usage.LookupSome | AEFM/data_collector/models.py:52-68 | `get` finds a value exactly when both the microservice and the pod are present |
| Usage.GetInRecords | AEFM/data_collector/models.py:52-68 | a value found is the value of an entry of the records |
| Usage.PutEntries | AEFM/data_collector/models.py:40-50 | a write adds the pair and keeps only pairs already there |
| Usage.InnerWellFormed | AEFM/data_collector/models.py:40-50 | an inner dictionary of well-formed records has distinct keys |
| Usage.SetKeepsWellFormed | AEFM/data_collector/models.py:40-50 | `set` keeps keys distinct at both levels and no inner dictionary empty |
| Usage.LookupSetSame | AEFM/data_collector/models.py:40-68 | after `set(ms, pod, usage)`, `get(ms, pod)` is `usage` (also data_collector/models.py:11-39) |
| Usage.LookupSetOther | data_collector/models.py:11-39 | `set` leaves every other `(microservice, pod)` as it was (the AEFM copy is AEFM/data_collector/models.py:40-68) |
| Usage.InnerRows | AEFM/data_collector/models.py:77-86 | one row per pod of a microservice's dictionary, in insertion order |
| Usage.InnerLookup | AEFM/data_collector/models.py:62-68 | with distinct keys, a pair is stored exactly when `get` finds it |
| Usage.PrefixGet | AEFM/data_collector/models.py:62-68 | looking up another microservice ignores the last entry |
| Usage.LastGet | AEFM/data_collector/models.py:62-68 | the last entry is found under its own key |
| Usage.RowsAreEntries | AEFM/data_collector/models.py:77-86 | the table has a row `(ms, pod, usage)` exactly when `get(ms, pod) == usage` |
| Usage.RowsDistinct | AEFM/data_collector/models.py:77-86 | no two rows share a `(microservice, pod)` |
| Usage.InnerRowsNoDup | AEFM/data_collector/models.py:77-86 | a microservice's rows are pairwise distinct |
| Usage.RowsHaveNoDup | AEFM/data_collector/models.py:77-86 | the table's rows are pairwise distinct |
| Usage.UsageRecords.constructor | AEFM/data_collector/models.py:37-38 | the records start empty |
| Usage.UsageRecords.Set | AEFM/data_collector/models.py:40-50 | the records become `SetUsage` of the old ones, and stay well formed |
| Usage.UsageRecords.Get | AEFM/data_collector/models.py:52-68 | returns `Lookup` of the records |
| Usage.UsageRecords.ToPandas | AEFM/data_collector/models.py:70-86 | no records is a ValueError (nothing to concatenate); otherwise the rows of every microservice, in order |
| PromHardware.MicroserviceOf | AEFM/data_collector/prom_hardware_collector.py:39 | a pod name with fewer than three `-` parts gives `""` |
| PromHardware.PodOfDeployment | AEFM/data_collector/prom_hardware_collector.py:39 | `<deployment>-<replicaset>-<pod>` maps back to the deployment |
| PromHardware.MaxValue | AEFM/data_collector/prom_hardware_collector.py:40 | the maximum is attained and bounds every value |
| PromHardware.ReduceWellFormed | AEFM/data_collector/prom_hardware_collector.py:36-41 | the reduced records are well formed |
| PromHardware.LastSeriesWins | AEFM/data_collector/prom_hardware_collector.py:36-41 | every pod of the response is recorded with its maximum, unless a later series names it again |
| PromHardware.OnlyResponsePods | AEFM/data_collector/prom_hardware_collector.py:36-41 | only pods of the response are recorded, under their microservice |
| PromHardware.UsageOf | AEFM/data_collector/prom_hardware_collector.py:19-42 | the reduction of a response fails with ValueError exactly when some series has no values; no `data` gives no records; the records are well formed (each microservice once, each pod once under it) |
| PromHardware.CollectUsage | AEFM/data_collector/prom_hardware_collector.py:32-42 | no `data` gives empty records; otherwise the records are the reduction, and a series without values is a ValueError (`max([])`); the same holds for memory, 57-67 |
| PromHardware.ReduceSnoc | AEFM/data_collector/prom_hardware_collector.py:38-41 | one more series is one more `set` of its pod's maximum |
| DataCollector.RequestedMicroservices | AEFM/data_collector/base.py:86 | `unique()` of the microservice column: every microservice of the table once, and nothing else |
| DataCollector.MergeUsageRows | AEFM/data_collector/base.py:101 | the hardware table has exactly the pods present in both usage tables, with both usages |
| DataCollector.RequestsInOrder | AEFM/data_collector/base.py:63-101 | the stages run in the order throughput, traces, cpu, memory; the hardware requests carry the statistical table's microservices |
| DataCollector.Run | AEFM/data_collector/base.py:63-108 | a run never fails at saving; it fails at the throughput stage exactly when it made one request, at the trace stage exactly when it made two, at the hardware stage after three or four, and collects after all four, with the throughput answered |
| DataCollector.FirstFailureStops | AEFM/data_collector/base.py:63-108 | the first stage that raises ends the run, and no later stage is reached |
| DataCollector.NoTracesFailsTraceStage | AEFM/data_collector/base.py:73-83 | an empty Jaeger answer makes `process_trace` fail on None, so the trace stage fails after two requests |
| DataCollector.JaegerTables | AEFM/data_collector/base.py:73-79 | the statistical and raw tables saved are `process_trace` of the flattened traces |
| DataCollector.NoUsageFailsHardwareStage | AEFM/data_collector/base.py:87-108 | a Prometheus answer without series fails the hardware stage (`to_pandas` has nothing to concatenate) |
| DataCollector.WithColumns | AEFM/data_collector/base.py:111-121 | `assign` gives every row the same additional columns and keeps the rows |
| DataCollector.Appends | AEFM/data_collector/base.py:122-131 | at most four appends take effect, and all four when none raises |
| DataCollector.BaseDataCollector.constructor | AEFM/data_collector/base.py:37-43 | keeps the path and process limit; there is no pool yet |
| DataCollector.BaseDataCollector.GetState | AEFM/data_collector/base.py:141-144 | the pickled state carries the path and process limit, not the pool |
| DataCollector.BaseDataCollector.Call | AEFM/data_collector/base.py:64-100 | a collaborator call is recorded and changes nothing else |
| DataCollector.BaseDataCollector.CollectHardware | AEFM/data_collector/base.py:87-101 | the result is the hardware stage's; memory is asked for only after the cpu table was built |
| DataCollector.BaseDataCollector.Collect | AEFM/data_collector/base.py:56-132 | the requests are the run's, in order, and the stores hold what the run saved |
| DataCollector.BaseDataCollector.Save | AEFM/data_collector/base.py:110-132 | each store gains its table with the additional columns, in the order statistical, raw, hardware, throughput, until an append raises |
| DataCollector.BaseDataCollector.CollectAsync | AEFM/data_collector/base.py:45-54 | a pool is created on first use only, then one run is submitted |
| DataCollector.BaseDataCollector.Wait | AEFM/data_collector/base.py:134-139 | always leaves a new pool and changes no store |
| DataCollector.TableOf | AEFM/data_collector/base.py:87-100 | `collect_*_usage(...).to_pandas()` on the objects equals the stage function |
| DataCollector.NoAdditionalColumns | AEFM/data_collector/base.py:111 | without additional columns the stored rows carry none |
| YamlDocs.DigitsEnd | AEFM/utils/kubernetes_YAMLs.py:216 | the end of a run of digits: all digits before it, none at it |
| YamlDocs.BracketAt | AEFM/utils/kubernetes_YAMLs.py:216 | a match of `\[(\d+)\]` is a `[`, at least one digit, then `]` |
| YamlDocs.LastBracket | AEFM/utils/kubernetes_YAMLs.py:216 | the greedy `(.*)` takes the last position where the bracket matches |
| YamlDocs.ParseSegment | AEFM/utils/kubernetes_YAMLs.py:216-219 | a part without `[` is a key; group 1 of an indexed part is a proper prefix ending before `[` |
| YamlDocs.ParseIndexed | AEFM/utils/kubernetes_YAMLs.py:216-219 | `name[i]` parses back to `name` and `i` |
| YamlDocs.ParseAll | AEFM/utils/kubernetes_YAMLs.py:212-219 | every dotted part, parsed |
| YamlDocs.SegmentsOfKeys | AEFM/utils/kubernetes_YAMLs.py:212 | a path of plain keys parses to those keys |
| YamlDocs.Names | AEFM/utils/kubernetes_YAMLs.py:262 | the searched path records each part's name |
| YamlDocs.Lookup | AEFM/utils/kubernetes_YAMLs.py:256-261 | `name in obj` then `obj[name]`: the value of a present key, None when absent, TypeError on a scalar |
| YamlDocs.Subscript | AEFM/utils/kubernetes_YAMLs.py:261 | `obj[key]`: the value, KeyError when absent from a mapping, TypeError on anything else |
| YamlDocs.SearchFound | AEFM/utils/kubernetes_YAMLs.py:211-263 | a path that resolves is found with its value and the whole path; a search that succeeds has resolved the path |
| YamlDocs.SearchStops | AEFM/utils/kubernetes_YAMLs.py:220-259 | a failed search stops at the deepest object reached, after a proper prefix of the path, and reports that prefix |
| YamlDocs.PrefixStep | AEFM/utils/kubernetes_YAMLs.py:254-262 | walking `k + 1` parts is one step, then `k` more |
| YamlDocs.SearchErrors | AEFM/utils/kubernetes_YAMLs.py:234-238 | the only error of the default search is the TypeError of indexing a value that is not a list |
| YamlDocs.IndexingNonList | AEFM/utils/kubernetes_YAMLs.py:234-238 | `name[i]` on an existing value that is not a list raises TypeError |
| YamlDocs.SearchPath | AEFM/utils/kubernetes_YAMLs.py:211-263 | the loop equals the recursive search |
| YamlEdit.SetLast | AEFM/utils/kubernetes_YAMLs.py:300-318 | the final assignment succeeds only on a mapping, and leaves a mapping |
| YamlEdit.Descend | AEFM/utils/kubernetes_YAMLs.py:271-298 | the creating walk succeeds only on a mapping, and leaves a mapping |
| YamlEdit.PrefixSegments | AEFM/utils/kubernetes_YAMLs.py:291-298 | the walk goes through exactly the parts before the last one |
| YamlEdit.EditSegments | AEFM/utils/kubernetes_YAMLs.py:291-302 | an edit's path is the walked parts, then the final one |
| YamlEdit.DescendSets | AEFM/utils/kubernetes_YAMLs.py:271-318 | after a successful walk and assignment the value sits at the path |
| YamlEdit.EditPartsSets | AEFM/utils/kubernetes_YAMLs.py:291-318 | the walk over the parts before the last, then the final assignment, leave the value at the path they go through |
| YamlEdit.EditAsWritten | AEFM/utils/kubernetes_YAMLs.py:266-319 | where `_edit` as written succeeds, the value sits at the path and every path that branches off it reads as before |
| YamlEdit.Edit | AEFM/utils/kubernetes_YAMLs.py:266-319 | the corrected `_edit` agrees with the code as written wherever that succeeds, and only edits a mapping document into a mapping |
| YamlEdit.EditSets | AEFM/utils/kubernetes_YAMLs.py:266-319 | after a successful `_edit` the value sits at the path, and every path that branches off it (another key or another list item, at any level) reads as before (also AEFM/cli/utils.py:24-77) |
| YamlEdit.KeepsOtherKeys | AEFM/utils/kubernetes_YAMLs.py:266-319 | the top-level case of the frame: every key other than the one the edit goes through keeps its value |
| YamlEdit.SetLastKeepsBeside | AEFM/utils/kubernetes_YAMLs.py:300-318 | the final assignment changes no other key of the object, and no other item of the list it writes into |
| YamlEdit.DescendKeepsOther | AEFM/utils/kubernetes_YAMLs.py:271-298 | one step of the walk changes no other key of the mapping it passes through, and no other item of the list it enters |
| YamlEdit.DescendKeepsBeside | AEFM/utils/kubernetes_YAMLs.py:271-318 | the walk and the final assignment leave every path that branches off the edited path reading as before, at every level, including inside entries the walk created |
| YamlEdit.EditPartsKeepsBeside | AEFM/utils/kubernetes_YAMLs.py:291-318 | the walk over the parts before the last, then the final assignment, change no path beside the one they go through |
| YamlEdit.EditKeepsBeside | AEFM/utils/kubernetes_YAMLs.py:266-319 | `_edit`, as written or corrected, changes no path beside `path` (also AEFM/cli/utils.py:24-77) |
| YamlEdit.EditTopLevelKey | AEFM/cli/utils.py:49-51 | a one-part path sets that key of the document and only that key; on a non-mapping it raises TypeError (also AEFM/utils/kubernetes_YAMLs.py:291-293, 317-318) |
| YamlEdit.IntermediateGap | AEFM/cli/utils.py:46-47 | an index past the end of an intermediate list, or a non-zero index on a missing one, raises IndexError (also AEFM/utils/kubernetes_YAMLs.py:288-289) |
| YamlEdit.AsWrittenAgrees | AEFM/utils/kubernetes_YAMLs.py:317-318 | with a plain final key, the code as written and the corrected reading agree |
| YamlEdit.AsWrittenExistingFails | AEFM/utils/kubernetes_YAMLs.py:305-307 | as written, a final `name[i]` on an existing name always raises TypeError |
| YamlEdit.ReplaceFirstItem | AEFM/utils/kubernetes_YAMLs.py:305-308 | `{"a": [1]}` with path `a[0]`: TypeError as written; with the index read as an integer, item 0 is replaced (also AEFM/cli/utils.py:63-66) |
| YamlEdit.FirstItemPath | AEFM/utils/kubernetes_YAMLs.py:212-219 | `name[0]` splits into one part, parsed as `name` indexed at 0 |
| YamlEdit.EditOfFirstItem | AEFM/utils/kubernetes_YAMLs.py:291-293 | a one-part indexed path is assigned on the document itself, in both readings |
| YamlEdit.MappingEdit | AEFM/utils/kubernetes_YAMLs.py:329-333 | a successful `_mapping_edit` returns the document unchanged or `_edit`, as written, with the value of some key of the mapping (which key: `YamlEdit.MappingEditSelects`) |
| YamlEdit.MappingEditSelects | AEFM/utils/kubernetes_YAMLs.py:329-333 | `_mapping_edit` makes the as-written `_edit` with the selected value exactly when `key_path` holds a key of the mapping, and otherwise returns the document unchanged |
| YamlEdit.ConditionalEdit | AEFM/utils/kubernetes_YAMLs.py:322-326 | a successful `_conditional_edit` returns the document unchanged or the as-written `_edit`; it fails only when the search or that edit does (when it edits: `YamlEdit.ConditionalEditDecides`) |
| YamlEdit.ConditionalEditDecides | AEFM/utils/kubernetes_YAMLs.py:322-326 | `_conditional_edit` makes the as-written `_edit`, errors included, exactly when the decision path holds a value equal to the condition under Python's `==`, or is absent and the condition is None, and otherwise returns the document unchanged |
| YamlEdit.PyEqRefl | AEFM/utils/kubernetes_YAMLs.py:324 | every value equals itself under `==` |
| YamlEdit.NumbersAcrossTypes | AEFM/utils/kubernetes_YAMLs.py:324 | `==` compares numbers by value across `int`, `float` and `bool`, and no string equals a number |
| YamlEdit.SwappedEntries | AEFM/utils/kubernetes_YAMLs.py:324 | two mappings with the same entries in another order are equal under `==` |
| YamlEdit.ConditionalEditAcrossTypes | AEFM/utils/kubernetes_YAMLs.py:322-326 | an integer at the decision path meets the same number given as a float, and the as-written `_edit` is made |
| KubernetesYamls.KindSelects | AEFM/utils/kubernetes_YAMLs.py:73-81 | only documents of the target kind are edited; the others pass unchanged |
| KubernetesYamls.UpdateAllPointwise | AEFM/utils/kubernetes_YAMLs.py:71-82 | a batch succeeds exactly when every document does, keeping their number and order |
| KubernetesYamls.UpdateAllFails | AEFM/utils/kubernetes_YAMLs.py:71-82 | the first failing document fails the batch with its own error |
| KubernetesYamls.UpdateAllSnoc | AEFM/utils/kubernetes_YAMLs.py:72-81 | one more document is one more loop step |
| KubernetesYamls.OtherKindsUnchanged | AEFM/utils/kubernetes_YAMLs.py:74-77 | a document of another kind comes out unchanged |
| KubernetesYamls.UpdateOfFirstItemRaises | AEFM/utils/kubernetes_YAMLs.py:71-83 | `update` of `name[0]` on a document whose `name` is a list raises the TypeError of `_edit` as written (lines 305-307) |
| KubernetesYamls.Replicas | AEFM/utils/kubernetes_YAMLs.py:146-159 | the replica dictionary as a YAML mapping, entry by entry |
| KubernetesYamls.GetReplicas | AEFM/utils/kubernetes_YAMLs.py:331 | a name's entry is its count |
| KubernetesYamls.TwoKeys | AEFM/utils/kubernetes_YAMLs.py:212 | `a.b` of plain keys parses to two keys |
| KubernetesYamls.FixedPaths | AEFM/utils/kubernetes_YAMLs.py:131-159 | `metadata.namespace`, `metadata.name` and `spec.replicas` each parse to their two keys |
| KubernetesYamls.SpecSegment | AEFM/utils/kubernetes_YAMLs.py:133-142 | `spec` parses to a plain key, distinct from `metadata` |
| KubernetesYamls.SpecFirst | AEFM/utils/kubernetes_YAMLs.py:291 | a `spec.` path splits with `spec` first |
| YamlEdit.EditPartsKeepsOtherKeys | AEFM/utils/kubernetes_YAMLs.py:291-318 | the top-level case for a many-part path: only the entry its walk starts with changes |
| KubernetesYamls.SpecEditKeepsMetadata | AEFM/utils/kubernetes_YAMLs.py:133-142 | a successful as-written `_edit` of a `spec.` path leaves `metadata` as it was |
| KubernetesYamls.SpecUpdateKeepsMetadata | AEFM/utils/kubernetes_YAMLs.py:133-142 | an update of a `spec.` path leaves every document's `metadata` as it was |
| KubernetesYamls.PreparedNamespace | AEFM/utils/kubernetes_YAMLs.py:131-144 | after `base_yaml_preparation` every document is in the namespace |
| KubernetesYamls.NamespaceSet | AEFM/utils/kubernetes_YAMLs.py:131 | the namespace update puts every document in the namespace |
| KubernetesYamls.NamespaceKept | AEFM/utils/kubernetes_YAMLs.py:132-142 | the later `spec.` updates keep the namespace |
| KubernetesYamls.MetadataCarries | AEFM/utils/kubernetes_YAMLs.py:131 | the same `metadata` gives the same namespace |
| KubernetesYamls.AssignedReplicas | AEFM/utils/kubernetes_YAMLs.py:146-161 | every Deployment named in the dictionary gets its count at `spec.replicas` |
| KubernetesYamls.KubernetesYAMLs.constructor | AEFM/utils/kubernetes_YAMLs.py:29-43 | the documents as loaded, empty ones dropped |
| KubernetesYamls.KubernetesYAMLs.Update | AEFM/utils/kubernetes_YAMLs.py:47-83 | the list becomes the batch result of `_edit` as written (or `_mapping_edit`) on each selected document; on an error it raises that error, such as the TypeError of a final `name[i]` on an existing name |
| KubernetesYamls.KubernetesYAMLs.BaseYamlPreparation | AEFM/utils/kubernetes_YAMLs.py:113-144 | the list becomes the three updates applied in order; on the first error that error is returned and the list holds the updates that succeeded before it |
| KubernetesYamls.NamespaceBeforeError | AEFM/utils/kubernetes_YAMLs.py:131-142 | once the namespace update succeeded, a later failing update leaves every document in the namespace |
| KubernetesYamls.KubernetesYAMLs.AssignContainers | AEFM/utils/kubernetes_YAMLs.py:146-161 | the list becomes the replica update selected by `metadata.name` |
| PodSpecs.LoadFromDict | models/pod_spec.py:19-30 | both sizes are required: the values given, else KeyError (TypeError on a non-mapping) |
| PodSpecs.ResourceQuantities | models/pod_spec.py:32-64 | `requests` and `limits`, in that order, hold exactly the spec's memory and CPU |
| PodSpecs.LoadThenRender | models/pod_spec.py:19-30 | loading the two sizes gives them back, whatever else the section holds |
| Nodes.LoadFromDict | models/node.py:20-33 | `name` and `roles` are required, `ip` optional and None when absent |
| Nodes.Display | models/node.py:43-47 | `str` and `repr` are the name |
| Configuration.Iterate | AEFM/configs/__init__.py:84-87 | `for x in d` visits a list's items, a mapping's keys or a string's characters; any other value is a TypeError |
| Configuration.Entries | AEFM/configs/__init__.py:37-46 | `for key in d` with `d[key]` reads a mapping's entries; other non-empty values raise TypeError |
| Configuration.PathAttrsGet | AEFM/configs/__init__.py:17-47 | every key given is an attribute with its value; a known path not given stays `""`; nothing else is an attribute |
| Configuration.LoadFilePaths | AEFM/configs/__init__.py:26-47 | the file paths are the attributes of the section's entries, or TypeError |
| Configuration.PathItem | AEFM/configs/__init__.py:49-50 | an attribute's value, else AttributeError |
| Configuration.ReadPath | AEFM/configs/__init__.py:17-50 | a loaded path reads back as given, a known one not given as `""`, anything else as AttributeError |
| Configuration.LoadAll | AEFM/configs/__init__.py:84 | the loaded nodes correspond to the items one by one |
| Configuration.RolesOf | AEFM/configs/__init__.py:86-87 | a node's roles iterated, each hashable, or TypeError |
| Configuration.CountIn | AEFM/configs/__init__.py:87-91 | a role is counted exactly when it is listed |
| Configuration.AddRolesGet | AEFM/configs/__init__.py:87-91 | adding a node to its roles appends it to each of them, creating the list of a new role |
| Configuration.GroupMembers | AEFM/configs/__init__.py:83-91 | grouping fails exactly when some node's roles cannot be iterated; otherwise each role maps to the nodes that list it, in input order |
| Configuration.NodeInItsRoles | AEFM/configs/__init__.py:85-91 | each node is in the list of every one of its roles |
| Configuration.MembersHas | AEFM/configs/__init__.py:85-91 | a node with a role is among that role's members |
| Configuration.GroupFails | AEFM/configs/__init__.py:85-91 | once a node fails, grouping fails |
| Configuration.FirstErrorSticks | AEFM/configs/__init__.py:77-97 | the first failing section decides the error |
| Configuration.FreshKey | AEFM/configs/__init__.py:77 | a mapping's key is not found before its own entry |
| Configuration.ConfigPath | AEFM/configs/__init__.py:124-127 | `CONFIG_FILE_PATH` when set, else `AEFM_CONFIGS`, else `aefm_configs.yaml` |
| Configuration.Configs.constructor | AEFM/configs/__init__.py:52-64 | no nodes and no attributes |
| Configuration.Configs.GroupNodes | AEFM/configs/__init__.py:85-91 | the node groups become the grouping of the loaded nodes, or TypeError |
| Configuration.Configs.LoadSection | AEFM/configs/__init__.py:78-97 | one section: the nodes are grouped, or the section's attribute is set and no other changes |
| Configuration.Configs.LoadStep | AEFM/configs/__init__.py:77-97 | one more section keeps the loaded state consistent with the entries read |
| Configuration.Configs.LoadFromYaml | AEFM/configs/__init__.py:66-98 | a non-mapping is a TypeError; the first failing section's error stops the load; otherwise every other section is an attribute loaded from its value |
| Configuration.Configs.GetNodesByRole | AEFM/configs/__init__.py:100-109 | the role's list, or KeyError |
| Configuration.Configs.Item | AEFM/configs/__init__.py:111-112 | `nodes`, another attribute, or AttributeError |
| TestCaseModel.DropLast | AEFM/models/test_case.py:147 | `s[:-1]` drops the last character, and gives `""` for `""` |
| TestCaseModel.TerminatedIsJoin | AEFM/models/test_case.py:136-147 | following each segment by `\|` and dropping the last character is joining with `\|` |
| TestCaseModel.TerminatedSnoc | AEFM/models/test_case.py:143-146 | one more segment appends it and `\|` |
| TestCaseModel.PairsStep | AEFM/models/test_case.py:143-146 | one more interference or additional value appends `key=value\|` |
| TestCaseModel.HeadTerminated | AEFM/models/test_case.py:137-142 | the round and throughput segments, each present only when set |
| TestCaseModel.DisplayLists | AEFM/models/test_case.py:164-165 | when no segment holds `\|`, `__str__` lists the labelled segments separated by `, ` in brackets |
| TestCaseModel.AsDictGet | AEFM/models/test_case.py:149-159 | a key of `to_dict` holds its last write; keys nobody wrote are absent |
| TestCaseModel.AsDictKeys | AEFM/models/test_case.py:149-159 | the keys are the written keys in order of first write, each once |
| TestCaseModel.RoundKey | AEFM/models/test_case.py:151-152 | without a clashing name, `round` holds exactly the round when it is set |
| TestCaseModel.Interference.constructor | AEFM/models/test_case.py:32-34 | no interference types and the iterator at the start |
| TestCaseModel.Interference.Iter | AEFM/models/test_case.py:36-39 | restarts at the first type, in insertion order |
| TestCaseModel.Interference.Next | AEFM/models/test_case.py:41-49 | the next type with its count, or StopIteration at the end |
| TestCaseModel.Interference.Items | AEFM/models/test_case.py:36-49 | iteration visits exactly the stored pairs in insertion order |
| TestCaseModel.Interference.Len | AEFM/models/test_case.py:51-52 | the number of types |
| TestCaseModel.Interference.GetItem | AEFM/models/test_case.py:54-55 | a stored count, else KeyError |
| TestCaseModel.Interference.SetItem | AEFM/models/test_case.py:57-58 | sets or overwrites one type, which then reads back |
| TestCaseModel.Interference.Copy | AEFM/models/test_case.py:60-68 | a new object with the same counts |
| TestCaseModel.TestCase.constructor | AEFM/models/test_case.py:70-76 | nothing set, no markers, a new interference object |
| TestCaseModel.TestCase.SetAdditional | AEFM/models/test_case.py:78-85 | writes one additional value |
| TestCaseModel.TestCase.SetWorkload | AEFM/models/test_case.py:87-93 | sets the workload |
| TestCaseModel.TestCase.SetRound | AEFM/models/test_case.py:95-101 | sets the round |
| TestCaseModel.TestCase.AppendMarker | AEFM/models/test_case.py:103-110 | appends a marker |
| TestCaseModel.TestCase.SetInf | AEFM/models/test_case.py:112-119 | sets one interference count |
| TestCaseModel.TestCase.Copy | AEFM/models/test_case.py:121-134 | a new test case with a new interference object and the same contents |
| TestCaseModel.ComposeName | AEFM/models/test_case.py:137-147 | the loops build every segment followed by `\|`; dropping the last character gives the segments joined by `\|` |
| TestCaseModel.TestCase.GenerateName | AEFM/models/test_case.py:136-147 | the segments joined by `\|`, contents unchanged |
| TestCaseModel.WritesStep | AEFM/models/test_case.py:155-158 | one more write puts that key's value into the dictionary |
| TestCaseModel.ComposeDict | AEFM/models/test_case.py:150-159 | the loops leave the dictionary of all writes in order: round, throughput, interferences, additional values |
| TestCaseModel.TestCase.ToDict | AEFM/models/test_case.py:149-159 | the dictionary of the writes, contents unchanged |
| TestCaseModel.TestCase.Str | AEFM/models/test_case.py:161-165 | the bracketed display of the name |
| TestCasesModel.PyRange | AEFM/models/test_cases.py:23 | `range(start, stop, step)`: `start + k * step` inside the bounds, for either sign of step |
| TestCasesModel.PyRangeLength | AEFM/models/test_cases.py:23 | with a positive step the range stops at the first value reaching `stop` |
| TestCasesModel.LoadRange | AEFM/models/test_cases.py:5-27 | a list as it is; a dictionary without `min`/`max`/`step` is an AssertionError, a zero step a ValueError, otherwise `min` to `max` inclusive; null gives None; anything else is a ValueError |
| TestCasesModel.DictRangeLength | AEFM/models/test_cases.py:22-23 | a positive-step range ends at the last value not above `max`, and is empty when `min > max` |
| TestCasesModel.Source | AEFM/models/test_cases.py:176-197 | `round`, `workload`, an interference, then any other attribute; an unknown name is an AttributeError |
| TestCasesModel.Assign | AEFM/models/test_cases.py:142-152 | one value sets the round, workload, interference or additional value, and nothing else |
| TestCasesModel.BlocksLength | AEFM/models/test_cases.py:156-173 | `product` on existing cases gives `\|values\| * \|current\|` cases |
| TestCasesModel.BlocksAt | AEFM/models/test_cases.py:158-172 | value `k` applied to existing case `j` sits at `k * \|current\| + j`: the existing cases vary fastest |
| TestCasesModel.BlocksKeepStart | AEFM/models/test_cases.py:153-171 | every case keeps its first marker |
| TestCasesModel.FailureSticks | AEFM/models/test_cases.py:175-197 | once an order fails, generation fails with that error |
| TestCasesModel.Generated | AEFM/models/test_cases.py:133-199 | generation as written fails exactly when some order's range does not resolve to a list |
| TestCasesModel.Grid | AEFM/models/test_cases.py:133-199 | the intended grid fails exactly when some order's range does not resolve to a list |
| TestCasesModel.GeneratedCount | AEFM/models/test_cases.py:133-199 | with every range non-empty, one case per grid point, each starting with the first order's marker |
| TestCasesModel.GridSizePositive | AEFM/models/test_cases.py:133-199 | non-empty ranges make a non-empty grid |
| TestCasesModel.GridCount | AEFM/models/test_cases.py:133-199 | the intended grid has exactly the product of the range lengths, also when a range is empty |
| TestCasesModel.GeneratedIsGrid | AEFM/models/test_cases.py:133-199 | when no range is empty, the code as written builds the intended grid |
| TestCasesModel.EmptyRangeRestarts | AEFM/models/test_cases.py:139-154 | `round: []` then `workload: [10]` generates one case instead of none |
| TestCasesModel.RunsAppend | AEFM/models/test_cases.py:215-220 | workflow runs add up over concatenated traces |
| TestCasesModel.TriggersRunNothing | AEFM/models/test_cases.py:218-219 | marker triggers run no workflow |
| TestCasesModel.WorkflowOncePerCase | AEFM/models/test_cases.py:215-220 | the workflow runs once per test case |
| TestCasesModel.GenerateCached | AEFM/models/test_cases.py:130-131 | a second `generate` without `force` returns what the first returned |
| TestCasesModel.TestCases.constructor | AEFM/models/test_cases.py:85-91 | no generated cases yet |
| TestCasesModel.TestCases.Product | AEFM/models/test_cases.py:133-173 | the loop builds `Expand` |
| TestCasesModel.TestCases.Generate | AEFM/models/test_cases.py:118-199 | returns `GenerateResult` and caches a success |
| TestCasesModel.TestCases.Len | AEFM/models/test_cases.py:201-203 | the number of generated cases, or the generation's error |
| TestCasesModel.TestCases.Iter | AEFM/models/test_cases.py:205-220 | the events of every generated case: its marker triggers, then the workflow |
| Timer.ClockExact | AEFM/utils/timer.py:40-44 | minutes and seconds are below 60 and add back up to the seconds given |
| Timer.Pad2Digits | AEFM/utils/timer.py:41-43 | `format(x, "02d")` is at least two digits and reads back as `x` |
| Timer.DigitsHaveNoColon | AEFM/utils/timer.py:44 | digits hold no colon |
| Timer.ClockText | AEFM/utils/timer.py:44 | three runs of digits joined by colons read back as their values |
| Timer.Parser | AEFM/utils/timer.py:40-44 | `parser` of a non-negative duration is `hh:mm:ss` text that reads back as the same seconds |
| Timer.ReportOf | AEFM/utils/timer.py:25-31 | total is current minus start, average is its floor division by the count, and an estimate exists exactly with a total count |
| Timer.Step | AEFM/utils/timer.py:9-33 | the first call creates the entry with start and current at the call time, count 0, and the total count only when it is non-zero, and reports nothing; a later one increments the count, moves `current` and reports; other names are untouched |
| Timer.Run | AEFM/utils/timer.py:9-33 | counts stay non-negative over any sequence of calls |
| Timer.CountsCalls | AEFM/utils/timer.py:10-23 | a name has an entry exactly when it was called, and its count is the calls after the first |
| Timer.Timers.constructor | AEFM/utils/timer.py:4 | an empty registry |
| Timer.Timers.Wrapper | AEFM/utils/timer.py:9-33 | the registry takes one step, a line is logged exactly on later calls, and the function's result is returned |
| Manager.Registered | AEFM/manager/interfaces.py:33-61 | an unknown method on a registered event is a ValueError; otherwise only that event's handlers change |
| Manager.RegisterThenTrigger | AEFM/manager/interfaces.py:47-59 | a trigger then calls the new handler alone (`replace`, or a first registration), after the old ones (`append`), or before them (`insert`) |
| Manager.Events.constructor | AEFM/manager/interfaces.py:7-11 | no handlers |
| Manager.Events.Register | AEFM/manager/interfaces.py:33-61 | the handlers become `Registered`; a ValueError changes nothing |
| Manager.Events.Trigger | AEFM/manager/interfaces.py:13-31 | calls every handler of the event once, in list order, and none for an unknown event |
| Manager.GetIsLastSet | AEFM/manager/interfaces.py:86-93 | `get` returns the last value `set` under a name, None for a name never set |
| Manager.Store.constructor | AEFM/manager/interfaces.py:80-84 | an empty store |
| Manager.Store.Set | AEFM/manager/interfaces.py:86-87 | stores under the name |
| Manager.Store.Get | AEFM/manager/interfaces.py:89-93 | the value stored, or None (the same for `_Components`, 70-77) |
| Manager.Instances.constructor | AEFM/manager/interfaces.py:7-11 | no instance of any registry yet |
| Manager.Instances.NewEvents | AEFM/manager/interfaces.py:8-11 | the first construction creates the instance; every later one returns it |
| Manager.Instances.NewComponents | AEFM/manager/interfaces.py:65-68 | the first construction creates the instance; every later one returns it |
| Manager.Instances.NewData | AEFM/manager/interfaces.py:81-84 | the first construction creates the instance; every later one returns it |
| Manager.FiredAllAppend | AEFM/models/test_cases.py:216-220 | the events of consecutive steps concatenate |
| Manager.FiredAllSnoc | AEFM/models/test_cases.py:216-220 | one more step fires its events |
| Manager.FiredTriggers | AEFM/models/test_cases.py:218-219 | the marker steps fire `start_<marker>` per marker |
| Manager.FiredVisit | AEFM/manager/base.py:33-35 | a test case fires its marker events, then `start_single_test_case` and `start_data_collection` |
| Manager.FiredPerCase | AEFM/manager/base.py:33-37 | the events fired per test case, in order |
| Manager.NoEndDuringCases | AEFM/manager/base.py:33-37 | no test case fires `end_experiment` |
| Manager.EndOnce | AEFM/manager/base.py:22-38 | `run` starts with `start_experiment` and `init_environment` and fires `end_experiment` once, last |
| Manager.BaseManager.constructor | AEFM/manager/base.py:18-20 | the manager shares the singleton registries |
| Manager.BaseManager.Fire | AEFM/manager/base.py:26 | one more event fired, with its handlers called |
| Manager.BaseManager.Replay | AEFM/models/test_cases.py:217-220 | one step of `iter`: stores the current case, fires a marker event, or runs the workflow |
| Manager.BaseManager.ReplayAll | AEFM/models/test_cases.py:216-220 | the steps of `iter`, in order |
| Manager.BaseManager.Run | AEFM/manager/base.py:22-38 | `test_cases` is read after the two opening events, from what their handlers stored (the `start_experiment` handler stores the configured test cases, AEFM/manager/handlers.py:84) or else what was there before; anything but a `TestCases` is an AssertionError; otherwise the generated cases' events, then `end_experiment` |
| PodWait.NotReadyListed | AEFM/utils/kubernetes.py:130-145 | every pod is deployed exactly when none is listed as unfinished; the names listed are exactly those of the pods not deployed (also utils/kubernetes.py:112-127) |
| PodWait.DeletingListed | AEFM/utils/kubernetes.py:158-165 | no pod is being deleted exactly when none is listed; the names listed are exactly those of the pods being deleted (also utils/kubernetes.py:140-147) |
| PodWait.DeploymentCondition | AEFM/utils/kubernetes.py:130-145 | finished exactly when every pod is Running with every container ready; the unfinished are those not deployed |
| PodWait.DeletionCondition | AEFM/utils/kubernetes.py:158-165 | finished exactly when no pod has a deletion timestamp; the unfinished are exactly the pods being deleted, in listing order |
| PodWait.WaitAllCondition | AEFM/utils/kubernetes.py:178-198 | finished exactly when every pod is deployed and none is being deleted; the unfinished names are both kinds, each once (also utils/kubernetes.py:160-180) |
| PodWait.PollLimitBound | AEFM/utils/kubernetes.py:100-114 | a poll starts exactly while fewer than the timeout's seconds have been used |
| PodWait.FirstFinished | AEFM/utils/kubernetes.py:100-114 | the first poll that finds the condition finished, and none before it |
| PodWait.Poll | AEFM/utils/kubernetes.py:100-114 | one poll reports finished exactly when the condition holds |
| PodWait.WaitCore | AEFM/utils/kubernetes.py:98-119 | polls every five seconds until the first finished poll or the timeout; with the final debug line, a timeout of zero or less raises UnboundLocalError |
| PodWait.FirstFinishedStays | AEFM/utils/kubernetes.py:100-114 | the first finished poll stays first as more polls are allowed |
| PodWait.Wait | utils/kubernetes.py:81-101 | the wait reports whether and after how many polls the condition held, and never fails |
| LegacyCollectors.LegacyUsageOf | data_collector/hardware_collector.py:36-60 | the earlier reduction succeeds only on a response without series, and then records nothing; otherwise the first series raises, ValueError exactly when it has no values |
| LegacyCollectors.CollectUsageAsWritten | data_collector/hardware_collector.py:49-60 | no series gives empty records; otherwise the first series already raises: TypeError on a pair, ValueError on no values (also 75-86) |
| LegacyCollectors.PairsDoNotConvert | data_collector/hardware_collector.py:58 | on a response whose series all have values, the earlier reduction raises TypeError where the AEFM one records each pod's maximum |
| LegacyCollectors.ToPandasAsWritten | data_collector/models.py:41-56 | no records, or any stored entry, makes the earlier `to_pandas` raise ValueError; it never returns a row |
| LegacyTestCase.InfParts | models/test_case.py:127-128 | `zip` stops at the shorter of the types and counts |
| LegacyTestCase.SeparatedIsJoin | models/test_case.py:121-134 | following each part by `, ` and cutting the last two characters is joining with `, ` |
| LegacyTestCase.SeparatedSnoc | models/test_case.py:124-132 | one more part appends it and `, ` |
| LegacyTestCase.Interference.constructor | models/test_case.py:32-36 | three empty parallel lists |
| LegacyTestCase.Interference.Copy | models/test_case.py:38-48 | new lists with the same entries |
| LegacyTestCase.TestCase.constructor | models/test_case.py:50-56 | nothing set, no markers, empty interference lists |
| LegacyTestCase.TestCase.SetAdditional | models/test_case.py:58-65 | writes one additional value, which reads back |
| LegacyTestCase.TestCase.SetWorkload | models/test_case.py:67-73 | sets the workload |
| LegacyTestCase.TestCase.SetRound | models/test_case.py:75-81 | sets the round |
| LegacyTestCase.TestCase.AppendMarker | models/test_case.py:83-90 | appends a marker |
| LegacyTestCase.TestCase.AppendInf | models/test_case.py:92-102 | appends to each of the three lists, which stay the same length |
| LegacyTestCase.TestCase.Copy | models/test_case.py:104-116 | AttributeError when the workload was never set; otherwise a new test case with new lists and the same contents |
| LegacyTestCase.TestCase.Str | models/test_case.py:121-134 | AttributeError when the workload was never set; otherwise the parts joined by `, ` in brackets |
| LegacyTestCase.Separate | models/test_case.py:124-132 | the text after appending each further part and `, ` |
| LegacyManager.Events.constructor | manager/interfaces.py:7-11 | no handlers |
| LegacyManager.Events.Register | manager/interfaces.py:30-43 | the event's one handler is replaced; other events keep theirs (also experiment/experiement_manager.py:28-41) |
| LegacyManager.Events.Trigger | manager/interfaces.py:13-28 | None for an event without a handler; otherwise the handler's result (also experiment/experiement_manager.py:11-26) |
| LegacyManager.Components.constructor | manager/interfaces.py:46-50 | no components |
| LegacyManager.Components.Set | manager/interfaces.py:52-53 | stores under the name |
| LegacyManager.Components.Get | manager/interfaces.py:55-56 | the component, or AttributeError for a name never set (also experiment/experiement_manager.py:53-54) |
| LegacyManager.Registries.constructor | experiment/experiement_manager.py:5-9 | no instance of any registry yet |
| LegacyManager.Registries.NewEvents | experiment/experiement_manager.py:5-9 | the first construction creates the instance; every later one returns it |
| LegacyManager.Registries.NewComponents | experiment/experiement_manager.py:44-48 | the first construction creates the instance; every later one returns it |
| LegacyManager.Registries.NewData | experiment/experiement_manager.py:57-61 | the first construction creates the instance; every later one returns it (`get` returns None for a name never set, 66-70) |
| LegacyManager.PerCaseBlocks | experiment/experiement_manager.py:92-96 | each test case fires its three events in a block of its own, and none of them is `end_experiment` |
| LegacyManager.RunOrder | experiment/experiement_manager.py:88-97 | the three opening events, then each case's block at `3 + 3k`, then `end_experiment` once, last |
| LegacyManager.ExperimentManager.constructor | experiment/experiement_manager.py:79-82 | the manager shares the singleton registries |
| LegacyManager.ExperimentManager.Fire | experiment/experiement_manager.py:88 | one more event fired |
| LegacyManager.ExperimentManager.RunCase | experiment/experiement_manager.py:93-96 | stores the case as `current_test_case`, then fires its three events |
| LegacyManager.ExperimentManager.Run | experiment/experiement_manager.py:84-97 | TypeError after the opening events when `test_cases` is not a list of cases; otherwise `RunFired`, with the last case left as the current one |

## Left out

- File and directory I/O: `KubernetesYAMLs.__init__` reading files, `save`, `create_folder`, `append_csv_to_file` and the config file read in `load_configs`. The loaded values are parameters.
- `KubernetesYAMLs.assign_affinity`: it builds its value by formatting and re-parsing a YAML template. The update it then makes is the generic `update`.
- The YAML edits work on values. Python mutates the documents in place, and can share sub-objects between documents. An `update` that raises midway has already changed the earlier documents in Python; the model leaves the list as it was.
- YamlDocs.Lookup: dictionary keys are strings. Python's `1 == True` key equality and non-string keys are not modelled.
- YamlDocs.ParseSegment: the regular expression is modelled on a single dotted part; newlines inside a part are not considered.
- YamlEdit.MappingEditSelects: `key_path` is read with the default search only; a key path whose search raises is stated through the function, not the lemma.
- Logging is modelled only where it records an outcome: the `log.error` of each failing stage of `collect` and `save` and their final `log.info` are the `Failure(name, stage)` and `Success(name)` entries of `DataCollector.LogEntry`; the timer's line is what `Timer.Timers.Wrapper` returns; the debug line of `_wait_core` that raises is modelled. Every other `log.info`, `log.debug`, `log.warn` and `log.error` call, `traceback.print_exc`, `to_file`, and the text of every message are left out.
- Timer.Timers.Wrapper: the clock is one parameter `now`. The source reads `time()` twice on a first call.
- Sleeping in `_wait_core`. The Kubernetes listing's JSON shape is assumed, so its KeyErrors are not modelled.
- Multiprocessing: `collect_async` runs the collection at once. Pickling with `__setstate__` is not modelled.
- The HTTP fetches of Jaeger, Prometheus and wrk, and `deploy_by_yaml`/`delete_*`, are parameters or not modelled.
- TestCasesModel.Source: the `test_cases` section reaches the model already split into a plan. `TestCases.load_from_dict` (AEFM/models/test_cases.py:93-116) and its `Workload`/`Interference` loaders are not modelled, and `Configuration.Configs.LoadFromYaml` keeps that section as loaded.
- TestCasesModel.TestCases.Iter: `workflow()` is called without the test case its annotation names; the model records one workflow run per case.
- TestCasesModel.Assign: generated values are integers. A range may hold any YAML value in Python.
- Configuration.Entries: an empty list or string is iterated without error. Other non-mappings raise TypeError in the model; Python may raise IndexError or TypeError depending on the value.
- Configuration.Configs.Item: `__getattribute__` also finds the class's methods (`configs["get_nodes_by_role"]`); the model knows only the loaded attributes.
- Manager.Events.Trigger: handlers are names. Their side effects, and handlers that register others while being triggered, are not modelled; the one `run` depends on, the `test_cases` stored by the `start_experiment` handler, is the parameter `opening` of `Manager.BaseManager.Run`. The timer around the workflow in `run` is modelled by `Timer`, not inside `Run`.
- DataCollector.RequestedMicroservices: `unique()` keeps first occurrences; the model's order is first occurrence too. `dropna` is not modelled because microservices are never missing in the model.
- LegacyTestCase.DictRepr: Python's `repr` escaping of quotes inside keys is not modelled. Additional values are integers.
- LegacyTestCase.TestCase.SetWorkload: `set_workload(None)` is not modelled; None stands for a workload never set.
- LegacyManager.ExperimentManager.Run: a stored value other than a list of cases is treated as not iterable. A string or mapping would be iterated in Python.
- LegacyManager.ExperimentManager.Fire: the handler's result is dropped, as `run` drops it.
- SpanGraph.EdgeOf: each span's process is assumed to be listed in its own trace, as Jaeger writes traces. The source looks processes up in one wide table over all traces, so a process missing from its own trace but listed in another gives NaN and `""` there; the model gives a KeyError.
- Decomposer.AllRows: the `(trace_id, parent_id)` groups come out in first-occurrence order. pandas `groupby` sorts its keys, so the program's rows come in another order; the contracts state membership and counts only.
- Aggregation.Perspective: the `(microservice, pod)` keys come out in first-occurrence order, where pandas `groupby` sorts them. The rows are the same; their order differs.
- JaegerCollector.EndToEnd: the trace ids come out in first-occurrence order, where pandas `groupby` sorts them. The rows are the same; their order differs.
- Floating point: latencies and usages are reals. pandas' float rounding and NaN handling are not modelled.
- Node.get_roles, PodSpec.get_mem and PodSpec.get_cpu return fields; the model reads the fields.

## Findings

| source | as written | input that shows it | evidently intended | confidence | as-written member | corrected member |
|---|---|---|---|---|---|---|
| utils/trace_processor.py:232-235 | the merged child durations are summed per row, so a step of parallel children is subtracted once per child | children [10,40] and [20,50] under a 100 µs parent give 20 µs of exclusive time | subtract each step once: 60 µs | high, not executed | Decomposer.ParallelChildrenCountedTwice | Decomposer.PerRowAgreesWhenSequential |
| AEFM/models/test_cases.py:139-154 | `product` treats an empty list as "no order yet", so an empty range in the middle restarts the product | orders `[round, workload]`, `round: []`, `workload: [10]` give one case with no round | an empty range empties the grid | high, not executed | TestCasesModel.EmptyRangeRestarts | TestCasesModel.GridCount |
| AEFM/utils/kubernetes_YAMLs.py:305-307 | the final index stays a string and is compared with `len(...)`, which raises TypeError; `update` goes through this code, so the model of `update` raises it too | `_edit({"a": [1]}, "a[0]", v)` | replace item 0 | high, not executed | YamlEdit.ReplaceFirstItem | YamlEdit.EditSets |
| AEFM/utils/kubernetes.py:117 | the final debug line reads `unfinished_pods`, assigned only inside the loop | any wait with `timeout <= 0` | the wait returns without polling | high, not executed | PodWait.WaitCore | PodWait.Wait |
| data_collector/hardware_collector.py:58 | `float(v)` of a `[timestamp, value]` pair raises TypeError | any series with a value | the maximum of the values, as AEFM/data_collector/prom_hardware_collector.py:40 takes `v[1]` | high, not executed | LegacyCollectors.CollectUsageAsWritten | PromHardware.CollectUsage |
| data_collector/models.py:52-54 | the pod names are passed as data and the usages as index, under two column names, which raises ValueError | records holding any entry | one `microservice, pod, usage` row per entry, as AEFM/data_collector/models.py:77-86 builds with `zip` | medium, not executed | LegacyCollectors.ToPandasAsWritten | Usage.UsageRecords.ToPandas |
