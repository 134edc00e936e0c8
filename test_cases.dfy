/** `TestCases` (AEFM/models/test_cases.py): the experiment's parameter ranges,
    their expansion into the list of test cases, and the iteration that drives the
    workflow once per test case. */
module TestCasesModel {
  import opened Wrappers
  import opened Seqs
  import opened OrderedMaps
  import opened TestCaseModel

  // ------------------------------------------------------------------ ranges

  /** A `range` section as it comes from the YAML file. */
  datatype RangeSection =
    | ListSection(values: seq<int>)
    | DictSection(fields: OMap<string, int>)
    | NullSection
    | OtherSection

  /** Python's `range(start, stop, step)` for a non-zero step. */
  function PyRange(start: int, stop: int, step: int): (r: seq<int>)
    requires step != 0
    ensures forall k :: 0 <= k < |r| ==> r[k] == start + k * step
    ensures step > 0 ==> forall x <- r :: start <= x < stop
    ensures step < 0 ==> forall x <- r :: stop < x <= start
    decreases if step > 0 then stop - start else start - stop
  {
    if (step > 0 && start >= stop) || (step < 0 && start <= stop) then []
    else
      var rest := PyRange(start + step, stop, step);
      assert forall k :: 1 <= k < |rest| + 1 ==> rest[k - 1] == start + k * step by {
        forall k | 1 <= k < |rest| + 1 {
          ShiftStep(start, step, k);
        }
      }
      [start] + rest
  }

  /** The value at `k` of a range that starts one step later. */
  lemma ShiftStep(start: int, step: int, k: int)
    ensures (start + step) + (k - 1) * step == start + k * step
  {
  }

  /** With a positive step the range stops at the first value that would reach
      `stop`. */
  lemma {:induction false} PyRangeLength(start: int, stop: int, step: int)
    requires step > 0
    ensures start >= stop ==> |PyRange(start, stop, step)| == 0
    ensures start < stop ==>
      var n := |PyRange(start, stop, step)|;
      n > 0 && start + (n - 1) * step < stop <= start + n * step
    decreases stop - start
  {
    if start < stop {
      PyRangeLength(start + step, stop, step);
      var n := |PyRange(start, stop, step)|;
      assert start + n * step == (start + step) + (n - 1) * step;
      if n > 1 {
        assert start + (n - 1) * step == (start + step) + (n - 2) * step;
      }
    }
  }

  lemma MulMono(x: int, y: int, m: nat)
    requires x <= y
    ensures x * m <= y * m
  {
  }

  /** `min`, `max` and `step` are all present. */
  predicate HasBounds(f: OMap<string, int>)
  {
    Get(f, "min").Some? && Get(f, "max").Some? && Get(f, "step").Some?
  }

  /** `_load_range`: a list is used as it is; a dictionary needs `min`, `max`
      and `step` and gives `min` to `max` inclusive; a null gives None; anything
      else is a ValueError. */
  function LoadRange(section: RangeSection): (r: Result<Option<seq<int>>>)
    ensures section.ListSection? ==> r == Ok(Some(section.values))
    ensures section.NullSection? ==> r == Ok(None)
    ensures section.OtherSection? ==> r == Err(ValueError)
    ensures section.DictSection? && !HasBounds(section.fields) ==> r == Err(AssertionError)
    ensures section.DictSection? && HasBounds(section.fields) && Get(section.fields, "step").value == 0 ==>
      r == Err(ValueError)
    ensures section.DictSection? && HasBounds(section.fields) && Get(section.fields, "step").value != 0 ==>
      r.Ok? && r.value.Some? &&
      forall k :: 0 <= k < |r.value.value| ==>
        r.value.value[k] == Get(section.fields, "min").value + k * Get(section.fields, "step").value
    ensures section.DictSection? && HasBounds(section.fields) && Get(section.fields, "step").value > 0 ==>
      r.Ok? && r.value.Some? &&
      forall x <- r.value.value :: Get(section.fields, "min").value <= x <= Get(section.fields, "max").value
    ensures section.DictSection? && HasBounds(section.fields) && Get(section.fields, "step").value < 0 ==>
      r.Ok? && r.value.Some? &&
      forall x <- r.value.value :: Get(section.fields, "max").value < x - 1 && x <= Get(section.fields, "min").value
  {
    match section
    case ListSection(values) => Ok(Some(values))
    case DictSection(f) =>
      if !HasBounds(f) then Err(AssertionError)
      else if Get(f, "step").value == 0 then Err(ValueError)
      else Ok(Some(PyRange(Get(f, "min").value, Get(f, "max").value + 1, Get(f, "step").value)))
    case NullSection => Ok(None)
    case OtherSection => Err(ValueError)
  }

  /** A `{min, max, step}` section with a positive step ends at the last value
      not above `max`, and is empty when `min > max`. */
  lemma DictRangeLength(f: OMap<string, int>)
    requires HasBounds(f) && Get(f, "step").value > 0
    ensures var r := LoadRange(DictSection(f));
      var (lo, hi, step) := (Get(f, "min").value, Get(f, "max").value, Get(f, "step").value);
      var n := |r.value.value|;
      r.Ok? && r.value.Some? && (lo > hi ==> n == 0) && (lo <= hi ==> n > 0 && lo + (n - 1) * step <= hi < lo + n * step)
  {
    PyRangeLength(Get(f, "min").value, Get(f, "max").value + 1, Get(f, "step").value);
  }

  // --------------------------------------------------------------- the plan

  /** `TestCases.Workload`: generator configuration and throughput range. */
  datatype WorkloadRange = WorkloadRange(configs: Configs, range: Option<seq<int>>)

  /** `TestCases.Interference`: type name, configuration and count range. */
  datatype InterferenceRange = InterferenceRange(infType: string, configs: Configs, range: Option<seq<int>>)

  /** What `load_from_dict` read: the orders, the round range, the workload, the
      interferences by name and the remaining top-level lists by key. */
  datatype Plan = Plan(
    orders: seq<string>,
    round: Option<seq<int>>,
    workload: WorkloadRange,
    interferences: OMap<string, InterferenceRange>,
    attributes: OMap<string, Option<seq<int>>>)

  /** Where the values of one order go. */
  datatype Route =
    | RoundRoute
    | WorkloadRoute(configs: Configs)
    | InterferenceRoute(infType: string)
    | AdditionalRoute(key: string)

  /** The range and route of an order: `round` and `workload` first, then the
      interferences, then any other attribute; an unknown name is an
      AttributeError. */
  function Source(plan: Plan, order: string): (r: Result<(Option<seq<int>>, Route)>)
    ensures r.Err? <==> order != "round" && order != "workload" && order !in Keys(plan.interferences) && order !in Keys(plan.attributes)
    ensures r.Err? ==> r.error == AttributeError
    ensures r.Ok? && order == "round" ==> r.value == (plan.round, RoundRoute)
  {
    GetSome(plan.interferences, order);
    GetSome(plan.attributes, order);
    if order == "round" then Ok((plan.round, RoundRoute))
    else if order == "workload" then Ok((plan.workload.range, WorkloadRoute(plan.workload.configs)))
    else match Get(plan.interferences, order)
      case Some(inf) => Ok((inf.range, InterferenceRoute(inf.infType)))
      case None =>
        match Get(plan.attributes, order)
        case Some(range) => Ok((range, AdditionalRoute(order)))
        case None => Err(AttributeError)
  }

  /** One value of an order applied to a test case: `set_round`, `set_workload`,
      `set_inf` or `set_additional`. */
  function Assign(c: Case, route: Route, i: int): (r: Case)
    ensures r.markers == c.markers
    ensures route.RoundRoute? ==> r == c.(round := Some(i))
    ensures route.WorkloadRoute? ==> r == c.(workload := Some(Workload(i, route.configs)))
    ensures route.InterferenceRoute? ==> r == c.(interferences := Put(c.interferences, route.infType, i))
    ensures route.AdditionalRoute? ==> r == c.(additional := Put(c.additional, route.key, i))
  {
    match route
    case RoundRoute => c.(round := Some(i))
    case WorkloadRoute(configs) => c.(workload := Some(Workload(i, configs)))
    case InterferenceRoute(t) => c.(interferences := Put(c.interferences, t, i))
    case AdditionalRoute(key) => c.(additional := Put(c.additional, key, i))
  }

  function Marked(c: Case, order: string): Case
  {
    c.(markers := c.markers + [order])
  }

  /** `product` on an empty list: one new test case per value, marked with the
      order. */
  function Fresh(order: string, route: Route, values: seq<int>): seq<Case>
  {
    seq(|values|, k requires 0 <= k < |values| => Marked(Assign(Blank, route, values[k]), order))
  }

  /** The copies of the current test cases for one value; the first is marked. */
  function Block(order: string, route: Route, current: seq<Case>, i: int): seq<Case>
  {
    seq(|current|, j requires 0 <= j < |current| =>
      if j == 0 then Marked(Assign(current[j], route, i), order) else Assign(current[j], route, i))
  }

  function Blocks(order: string, route: Route, current: seq<Case>, values: seq<int>): seq<Case>
  {
    if |values| == 0 then []
    else Blocks(order, route, current, values[..|values| - 1]) + Block(order, route, current, values[|values| - 1])
  }

  /** The list `product` returns. */
  function Expand(order: string, route: Route, current: seq<Case>, values: seq<int>): seq<Case>
  {
    if |current| == 0 then Fresh(order, route, values) else Blocks(order, route, current, values)
  }

  lemma {:induction false} BlocksLength(order: string, route: Route, current: seq<Case>, values: seq<int>)
    ensures |Blocks(order, route, current, values)| == |values| * |current|
  {
    if |values| > 0 {
      var n := |values| - 1;
      BlocksLength(order, route, current, values[..n]);
      assert (n + 1) * |current| == n * |current| + |current|;
    }
  }

  /** The existing test cases vary fastest: value `k` of the new order applied to
      existing case `j` sits at `k * |current| + j`. */
  lemma {:induction false} BlocksAt(order: string, route: Route, current: seq<Case>, values: seq<int>, k: nat, j: nat)
    requires k < |values| && j < |current|
    ensures k * |current| + j < |Blocks(order, route, current, values)|
    ensures Blocks(order, route, current, values)[k * |current| + j] == Block(order, route, current, values[k])[j]
  {
    var m := |current|;
    var n := |values| - 1;
    var front := values[..n];
    BlocksLength(order, route, current, values);
    BlocksLength(order, route, current, front);
    assert (k + 1) * m == k * m + m;
    if k < n {
      assert front[k] == values[k];
      MulMono(k + 1, n, m);
      BlocksAt(order, route, current, front, k, j);
    } else {
      assert k * m + j == |Blocks(order, route, current, front)| + j;
    }
  }

  /** Every case keeps its markers and gets at most the order's marker. */
  predicate StartsWith(cases: seq<Case>, marker: string)
  {
    forall c <- cases :: |c.markers| > 0 && c.markers[0] == marker
  }

  lemma {:induction false} BlocksKeepStart(order: string, route: Route, current: seq<Case>, values: seq<int>, marker: string)
    requires StartsWith(current, marker)
    ensures StartsWith(Blocks(order, route, current, values), marker)
  {
    if |values| > 0 {
      BlocksKeepStart(order, route, current, values[..|values| - 1], marker);
      var b := Block(order, route, current, values[|values| - 1]);
      forall c <- b ensures |c.markers| > 0 && c.markers[0] == marker {
        var j :| 0 <= j < |b| && b[j] == c;
        assert current[j] in current;
      }
    }
  }

  // ------------------------------------------------------------- generation

  /** The outcome of generating the first orders of `orders`, as written: an
      empty list at any point makes the next order start afresh. */
  function Generated(plan: Plan, orders: seq<string>): (r: Result<seq<Case>>)
    ensures r.Ok? <==> AllResolve(plan, orders)
  {
    if |orders| == 0 then Ok([])
    else
      var order := orders[|orders| - 1];
      ResolveSnoc(plan, orders);
      match Generated(plan, orders[..|orders| - 1])
      case Err(e) => Err(e)
      case Ok(cases) =>
        match Source(plan, order)
        case Err(e) => Err(e)
        case Ok((range, route)) =>
          if range.None? then Err(TypeError) else Ok(Expand(order, route, cases, range.value))
  }

  /** Once a prefix of the orders fails, generation fails with that error. */
  lemma {:induction false} FailureSticks(plan: Plan, orders: seq<string>, n: nat)
    requires n <= |orders| && Generated(plan, orders[..n]).Err?
    ensures Generated(plan, orders) == Generated(plan, orders[..n])
    decreases |orders| - n
  {
    if n < |orders| {
      assert orders[..n + 1][..n] == orders[..n];
      FailureSticks(plan, orders, n + 1);
    } else {
      assert orders[..n] == orders;
    }
  }

  /** The range of every order resolves to a non-empty list. */
  predicate AllRanges(plan: Plan, orders: seq<string>)
  {
    forall o <- orders :: Source(plan, o).Ok? && Source(plan, o).value.0.Some? && |Source(plan, o).value.0.value| > 0
  }

  function RangeLength(plan: Plan, order: string): nat
  {
    match Source(plan, order)
    case Ok((Some(values), _)) => |values|
    case _ => 0
  }

  /** The product of the range lengths of `orders`. */
  function GridSize(plan: Plan, orders: seq<string>): nat
  {
    if |orders| == 0 then 1 else GridSize(plan, orders[..|orders| - 1]) * RangeLength(plan, orders[|orders| - 1])
  }

  /** With every range non-empty, there is one test case per point of the grid,
      and every test case carries the first order's marker first. */
  lemma {:induction false} GeneratedCount(plan: Plan, orders: seq<string>)
    requires AllRanges(plan, orders)
    ensures Generated(plan, orders).Ok?
    ensures |orders| > 0 ==> |Generated(plan, orders).value| == GridSize(plan, orders)
    ensures |orders| > 0 ==> StartsWith(Generated(plan, orders).value, orders[0])
  {
    if |orders| > 0 {
      var front := orders[..|orders| - 1];
      var order := orders[|orders| - 1];
      assert order in orders;
      assert AllRanges(plan, front) by {
        forall o <- front ensures o in orders { }
      }
      GeneratedCount(plan, front);
      var cases := Generated(plan, front).value;
      var (range, route) := Source(plan, order).value;
      assert RangeLength(plan, order) == |range.value|;
      assert GridSize(plan, orders) == GridSize(plan, front) * RangeLength(plan, order);
      assert Generated(plan, orders) == Ok(Expand(order, route, cases, range.value));
      if |front| == 0 {
        assert |cases| == 0;
        assert StartsWith(Fresh(order, route, range.value), orders[0]);
      } else {
        assert front[0] == orders[0];
        assert |cases| > 0 by {
          GridSizePositive(plan, front);
        }
        BlocksCount(order, route, cases, range.value, GridSize(plan, front), orders[0]);
      }
    }
  }

  /** The blocks of a non-empty product: one case per pair, the first marker kept. */
  lemma BlocksCount(order: string, route: Route, cases: seq<Case>, values: seq<int>, size: nat, marker: string)
    requires |cases| == size && StartsWith(cases, marker)
    ensures |Blocks(order, route, cases, values)| == size * |values|
    ensures StartsWith(Blocks(order, route, cases, values), marker)
  {
    BlocksLength(order, route, cases, values);
    BlocksKeepStart(order, route, cases, values, marker);
  }

  lemma {:induction false} GridSizePositive(plan: Plan, orders: seq<string>)
    requires AllRanges(plan, orders)
    ensures GridSize(plan, orders) > 0
  {
    if |orders| > 0 {
      assert orders[|orders| - 1] in orders;
      assert AllRanges(plan, orders[..|orders| - 1]) by {
        forall o <- orders[..|orders| - 1] ensures o in orders { }
      }
      GridSizePositive(plan, orders[..|orders| - 1]);
    }
  }

  /** The intended grid: an empty range empties the result for good, and only
      the first order starts from a new list. */
  function Grid(plan: Plan, orders: seq<string>): (r: Result<seq<Case>>)
    ensures r.Ok? <==> AllResolve(plan, orders)
  {
    if |orders| == 0 then Ok([])
    else
      var order := orders[|orders| - 1];
      ResolveSnoc(plan, orders);
      match Grid(plan, orders[..|orders| - 1])
      case Err(e) => Err(e)
      case Ok(cases) =>
        match Source(plan, order)
        case Err(e) => Err(e)
        case Ok((range, route)) =>
          if range.None? then Err(TypeError)
          else if |orders| == 1 then Ok(Fresh(order, route, range.value))
          else Ok(Blocks(order, route, cases, range.value))
  }

  /** Every order's range resolves to a list, empty or not. */
  predicate AllResolve(plan: Plan, orders: seq<string>)
  {
    forall o <- orders :: Source(plan, o).Ok? && Source(plan, o).value.0.Some?
  }

  lemma ResolveSnoc(plan: Plan, orders: seq<string>)
    requires |orders| > 0
    ensures AllResolve(plan, orders) <==>
      AllResolve(plan, orders[..|orders| - 1]) && AllResolve(plan, [orders[|orders| - 1]])
  {
    assert orders == orders[..|orders| - 1] + [orders[|orders| - 1]];
  }

  /** The intended grid has exactly the product of the range lengths, also when a
      range is empty. */
  lemma {:induction false} GridCount(plan: Plan, orders: seq<string>)
    requires AllResolve(plan, orders)
    ensures Grid(plan, orders).Ok?
    ensures |orders| > 0 ==> |Grid(plan, orders).value| == GridSize(plan, orders)
  {
    if |orders| > 0 {
      var front := orders[..|orders| - 1];
      var order := orders[|orders| - 1];
      assert order in orders;
      assert AllResolve(plan, front) by {
        forall o <- front ensures o in orders { }
      }
      GridCount(plan, front);
      var cases := Grid(plan, front).value;
      var (range, route) := Source(plan, order).value;
      assert RangeLength(plan, order) == |range.value|;
      assert GridSize(plan, orders) == GridSize(plan, front) * RangeLength(plan, order);
      if |orders| == 1 {
        assert Grid(plan, orders) == Ok(Fresh(order, route, range.value));
      } else {
        assert Grid(plan, orders) == Ok(Blocks(order, route, cases, range.value));
        BlocksLength(order, route, cases, range.value);
        assert |range.value| * |cases| == GridSize(plan, front) * RangeLength(plan, order);
      }
    }
  }

  /** When no range is empty, the code as written builds the intended grid. */
  lemma {:induction false} GeneratedIsGrid(plan: Plan, orders: seq<string>)
    requires AllRanges(plan, orders)
    ensures Generated(plan, orders) == Grid(plan, orders)
  {
    if |orders| > 0 {
      var front := orders[..|orders| - 1];
      var order := orders[|orders| - 1];
      assert order in orders;
      assert AllRanges(plan, front) by {
        forall o <- front ensures o in orders { }
      }
      GeneratedIsGrid(plan, front);
      GeneratedCount(plan, front);
      if |front| > 0 {
        GridSizePositive(plan, front);
      }
    }
  }

  /** As written, an empty range in the middle does not empty the result: with
      `orders = [round, workload]`, `round: []` and `workload` ranging over `[10]`,
      one test case with throughput 10 and no round is generated. */
  lemma EmptyRangeRestarts(configs: Configs)
    ensures var plan := Plan(["round", "workload"], Some([]), WorkloadRange(configs, Some([10])), [], []);
      Generated(plan, plan.orders) == Ok([Case(Some(Workload(10, configs)), [], None, ["workload"], [])])
      && Grid(plan, plan.orders) == Ok([])
  {
    var plan := Plan(["round", "workload"], Some([]), WorkloadRange(configs, Some([10])), [], []);
    assert plan.orders[..1] == ["round"];
    assert ["round"][..0] == [];
    assert Source(plan, "round") == Ok((Some([]), RoundRoute));
    assert Source(plan, "workload") == Ok((Some([10]), WorkloadRoute(configs)));
    assert Fresh("round", RoundRoute, []) == [];
    assert Generated(plan, ["round"]) == Ok([]);
    assert Grid(plan, ["round"]) == Ok([]);
    var single := Fresh("workload", WorkloadRoute(configs), [10]);
    assert |single| == 1;
    assert single[0] == Marked(Assign(Blank, WorkloadRoute(configs), 10), "workload");
    assert Assign(Blank, WorkloadRoute(configs), 10) == Case(Some(Workload(10, configs)), [], None, [], []);
    assert [] + ["workload"] == ["workload"];
    assert single == [Case(Some(Workload(10, configs)), [], None, ["workload"], [])];
    assert [10][..0] == [];
    assert Blocks("workload", WorkloadRoute(configs), [], [10]) == [];
  }

  // ---------------------------------------------------------------- objects

  /** One step of `iter`: the current test case stored, a marker's event
      triggered, or the workflow run. */
  datatype Event = SetCurrent(testCase: Case) | Trigger(name: string) | RunWorkflow

  /** The `start_<marker>` events of a test case, in marker order. */
  function Triggers(markers: seq<string>): seq<Event>
  {
    seq(|markers|, k requires 0 <= k < |markers| => Trigger("start_" + markers[k]))
  }

  function Visit(c: Case): seq<Event>
  {
    [SetCurrent(c)] + Triggers(c.markers) + [RunWorkflow]
  }

  /** The events of `iter` over `cases`. */
  function Trace(cases: seq<Case>): seq<Event>
  {
    if |cases| == 0 then [] else Trace(cases[..|cases| - 1]) + Visit(cases[|cases| - 1])
  }

  function Runs(events: seq<Event>): nat
  {
    if |events| == 0 then 0 else Runs(events[..|events| - 1]) + if events[|events| - 1].RunWorkflow? then 1 else 0
  }

  lemma {:induction false} RunsAppend(a: seq<Event>, b: seq<Event>)
    ensures Runs(a + b) == Runs(a) + Runs(b)
    decreases |b|
  {
    if |b| > 0 {
      assert (a + b)[..|a + b| - 1] == a + b[..|b| - 1];
      RunsAppend(a, b[..|b| - 1]);
    } else {
      assert a + b == a;
    }
  }

  lemma {:induction false} TriggersRunNothing(markers: seq<string>)
    ensures Runs(Triggers(markers)) == 0
  {
    if |markers| > 0 {
      assert Triggers(markers)[..|markers| - 1] == Triggers(markers[..|markers| - 1]);
      TriggersRunNothing(markers[..|markers| - 1]);
    }
  }

  /** The workflow runs once per test case. */
  lemma {:induction false} WorkflowOncePerCase(cases: seq<Case>)
    ensures Runs(Trace(cases)) == |cases|
  {
    if |cases| > 0 {
      var c := cases[|cases| - 1];
      WorkflowOncePerCase(cases[..|cases| - 1]);
      RunsAppend(Trace(cases[..|cases| - 1]), Visit(c));
      RunsAppend([SetCurrent(c)] + Triggers(c.markers), [RunWorkflow]);
      RunsAppend([SetCurrent(c)], Triggers(c.markers));
      TriggersRunNothing(c.markers);
      assert [SetCurrent(c)][..0] == [];
      assert [RunWorkflow][..0] == [];
    }
  }

  /** What `generate(force)` returns: the cached list when there is one and
      `force` is false, otherwise a new generation. */
  function GenerateResult(plan: Plan, cached: seq<Case>, force: bool): Result<seq<Case>>
  {
    if |cached| != 0 && !force then Ok(cached) else Generated(plan, plan.orders)
  }

  /** A second `generate` without `force` returns what the first returned. */
  lemma GenerateCached(plan: Plan, cached: seq<Case>)
    requires GenerateResult(plan, cached, false).Ok?
    ensures GenerateResult(plan, GenerateResult(plan, cached, false).value, false) == GenerateResult(plan, cached, false)
  {
  }

  /** `TestCases`, after `load_from_dict`. */
  class TestCases {
    const plan: Plan
    var generated: seq<Case>

    constructor(plan: Plan)
      ensures this.plan == plan && generated == []
    {
      this.plan := plan;
      generated := [];
    }

    /** `product`: expand the current list by one order's values. */
    static method Product(order: string, route: Route, current: seq<Case>, values: seq<int>) returns (r: seq<Case>)
      ensures r == Expand(order, route, current, values)
    {
      if |current| == 0 {
        r := seq(|values|, _ => Blank);
        for k := 0 to |values|
          invariant |r| == |values|
          invariant forall j :: 0 <= j < k ==> r[j] == Fresh(order, route, values)[j]
          invariant forall j :: k <= j < |values| ==> r[j] == Blank
        {
          r := r[k := Marked(Assign(r[k], route, values[k]), order)];
        }
        return;
      }
      r := [];
      for k := 0 to |values|
        invariant r == Blocks(order, route, current, values[..k])
      {
        var updated := current;
        updated := seq(|updated|, j requires 0 <= j < |updated| => Assign(updated[j], route, values[k]));
        updated := updated[0 := Marked(updated[0], order)];
        assert updated == Block(order, route, current, values[k]);
        assert values[..k + 1][..k] == values[..k];
        r := r + updated;
      }
      assert values[..|values|] == values;
    }

    /** `generate`. A failed generation leaves the cache as it was. */
    method Generate(force: bool) returns (r: Result<seq<Case>>)
      modifies this
      ensures r == GenerateResult(plan, old(generated), force)
      ensures generated == if r.Ok? then r.value else old(generated)
    {
      if |generated| != 0 && !force {
        return Ok(generated);
      }
      var orders := plan.orders;
      var cases := [];
      for n := 0 to |orders|
        modifies {}
        invariant Generated(plan, orders[..n]) == Ok(cases)
      {
        var order := orders[n];
        assert orders[..n + 1][..n] == orders[..n];
        var source := Source(plan, order);
        if source.Err? || source.value.0.None? {
          r := if source.Err? then Err(source.error) else Err(TypeError);
          FailureSticks(plan, orders, n + 1);
          return;
        }
        var (range, route) := source.value;
        cases := Product(order, route, cases, range.value);
      }
      assert orders[..|orders|] == orders;
      generated := cases;
      return Ok(cases);
    }

    /** `__len__`: generate (or reuse the cache), then count. */
    method Len() returns (r: Result<nat>)
      modifies this
      ensures GenerateResult(plan, old(generated), false).Err? ==> r == Err(GenerateResult(plan, old(generated), false).error)
      ensures GenerateResult(plan, old(generated), false).Ok? ==> r == Ok(|GenerateResult(plan, old(generated), false).value|)
      ensures generated == if r.Ok? then GenerateResult(plan, old(generated), false).value else old(generated)
    {
      var cases := Generate(false);
      if cases.Err? {
        return Err(cases.error);
      }
      return Ok(|generated|);
    }

    /** `iter`: for every generated test case, store it as the current one,
        trigger `start_<marker>` for each of its markers, then run the workflow. */
    method Iter() returns (r: Result<seq<Event>>)
      modifies this
      ensures GenerateResult(plan, old(generated), false).Err? ==> r == Err(GenerateResult(plan, old(generated), false).error)
      ensures GenerateResult(plan, old(generated), false).Ok? ==> r == Ok(Trace(GenerateResult(plan, old(generated), false).value))
      ensures generated == if r.Ok? then GenerateResult(plan, old(generated), false).value else old(generated)
    {
      var cases := Generate(false);
      if cases.Err? {
        return Err(cases.error);
      }
      var events := [];
      for k := 0 to |generated|
        modifies {}
        invariant events == Trace(generated[..k])
      {
        var c := generated[k];
        events := events + [SetCurrent(c)];
        for m := 0 to |c.markers|
          modifies {}
          invariant events == Trace(generated[..k]) + [SetCurrent(c)] + Triggers(c.markers[..m])
        {
          assert Triggers(c.markers[..m + 1]) == Triggers(c.markers[..m]) + [Trigger("start_" + c.markers[m])];
          events := events + [Trigger("start_" + c.markers[m])];
        }
        assert c.markers[..|c.markers|] == c.markers;
        assert generated[..k + 1][..k] == generated[..k];
        events := events + [RunWorkflow];
      }
      assert generated[..|generated|] == generated;
      return Ok(events);
    }
  }
}
