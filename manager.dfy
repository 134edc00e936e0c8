/** The experiment manager: the event, component and data registries of
    AEFM/manager/interfaces.py and `BaseManager.run` of AEFM/manager/base.py.
    Handlers are named by their `__qualname__`; what a handler does when called
    is outside the model, so a trigger returns the handlers it calls, in order. */
module Manager {
  import opened Wrappers
  import opened TestCaseModel
  import opened TestCasesModel

  type Handler = string

  /** The handler list after `register(event, handler, method)`. `replace`, or
      an event with no handlers yet, gives `[handler]` whatever `method` is. */
  function Registered(handlers: map<string, seq<Handler>>, event: string, handler: Handler, how: string): (r: Result<map<string, seq<Handler>>>)
    ensures r.Err? <==> how != "replace" && event in handlers && how != "append" && how != "insert"
    ensures r.Err? ==> r.error == ValueError
    ensures r.Ok? ==> r.value.Keys == handlers.Keys + {event}
    ensures r.Ok? ==> forall e :: e in handlers && e != event ==> r.value[e] == handlers[e]
  {
    if how == "replace" || event !in handlers then Ok(handlers[event := [handler]])
    else if how == "append" then Ok(handlers[event := handlers[event] + [handler]])
    else if how == "insert" then Ok(handlers[event := [handler] + handlers[event]])
    else Err(ValueError)
  }

  /** The handlers `trigger(event)` calls: none for an event without handlers. */
  function HandlersOf(handlers: map<string, seq<Handler>>, event: string): seq<Handler>
  {
    if event in handlers then handlers[event] else []
  }

  /** After a registration, a trigger of the event calls: only the new handler
      (`replace`, or a first registration); the old ones and then the new one
      (`append`); the new one and then the old ones (`insert`). Other events are
      not affected. */
  lemma RegisterThenTrigger(handlers: map<string, seq<Handler>>, event: string, handler: Handler, how: string, other: string)
    requires Registered(handlers, event, handler, how).Ok?
    ensures var after := Registered(handlers, event, handler, how).value;
      && (how == "replace" || event !in handlers ==> HandlersOf(after, event) == [handler])
      && (how == "append" && event in handlers ==> HandlersOf(after, event) == HandlersOf(handlers, event) + [handler])
      && (how == "insert" && event in handlers ==> HandlersOf(after, event) == [handler] + HandlersOf(handlers, event))
      && (other != event ==> HandlersOf(after, other) == HandlersOf(handlers, other))
  {
  }

  /** `_Events`: one handler list per event. */
  class Events {
    var handlers: map<string, seq<Handler>>

    constructor()
      ensures handlers == map[]
    {
      handlers := map[];
    }

    /** `register`; an unknown method on a registered event raises ValueError
        and changes nothing. */
    method Register(event: string, handler: Handler, how: string) returns (r: Result<()>)
      modifies this
      ensures r.Ok? <==> Registered(old(handlers), event, handler, how).Ok?
      ensures r.Ok? ==> handlers == Registered(old(handlers), event, handler, how).value
      ensures r.Err? ==> r.error == ValueError && handlers == old(handlers)
    {
      if how == "replace" || event !in handlers {
        handlers := handlers[event := [handler]];
        return Ok(());
      }
      var list := handlers[event];
      if how == "append" {
        handlers := handlers[event := list + [handler]];
        return Ok(());
      }
      if how == "insert" {
        handlers := handlers[event := [handler] + list];
        return Ok(());
      }
      return Err(ValueError);
    }

    /** `trigger`: calls every handler of the event once, in list order. */
    method Trigger(event: string) returns (called: seq<Handler>)
      ensures called == HandlersOf(handlers, event)
    {
      called := [];
      if event !in handlers {
        return;
      }
      var list := handlers[event];
      for k := 0 to |list|
        invariant called == list[..k]
      {
        called := called + [list[k]];
      }
      assert list[..|list|] == list;
    }
  }

  /** The map after `set`ting `sets` in order. */
  function SetAll<V>(values: map<string, V>, sets: seq<(string, V)>): map<string, V>
  {
    if |sets| == 0 then values
    else SetAll(values, sets[..|sets| - 1])[sets[|sets| - 1].0 := sets[|sets| - 1].1]
  }

  /** The value last `set` under `name`, if any. */
  function LastSet<V>(sets: seq<(string, V)>, name: string): Option<V>
  {
    if |sets| == 0 then None
    else if sets[|sets| - 1].0 == name then Some(sets[|sets| - 1].1)
    else LastSet(sets[..|sets| - 1], name)
  }

  /** `get` returns the last value `set` under the name, and None for a name never
      set. */
  lemma {:induction false} GetIsLastSet<V>(sets: seq<(string, V)>, name: string)
    ensures name in SetAll(map[], sets) <==> LastSet(sets, name).Some?
    ensures name in SetAll(map[], sets) ==> SetAll(map[], sets)[name] == LastSet(sets, name).value
  {
    if |sets| > 0 {
      GetIsLastSet(sets[..|sets| - 1], name);
    }
  }

  /** `_Components` and `_Data`: named values stored as attributes. */
  class Store<V> {
    var values: map<string, V>

    constructor()
      ensures values == map[]
    {
      values := map[];
    }

    method Set(name: string, value: V)
      modifies this
      ensures values == old(values)[name := value]
    {
      values := values[name := value];
    }

    /** `get`: None when nothing was stored under `name`. */
    method Get(name: string) returns (r: Option<V>)
      ensures r.Some? <==> name in values
      ensures r.Some? ==> r.value == values[name]
    {
      if name !in values {
        return None;
      }
      return Some(values[name]);
    }
  }

  /** What components are: outside the model. */
  type Component = string

  /** What `data` holds: the test cases, the current test case, or anything else. */
  datatype Value = TestCasesValue(testCases: TestCases) | CaseValue(testCase: Case) | OtherValue(tag: string)

  /** The class attribute `instance` of the three registries: each is created on
      first construction and returned by every later one. */
  class Instances {
    var events: Events?
    var components: Store?<Component>
    var data: Store?<Value>

    constructor()
      ensures events == null && components == null && data == null
    {
      events, components, data := null, null, null;
    }

    method NewEvents() returns (e: Events)
      modifies this
      ensures old(events) != null ==> e == old(events)
      ensures old(events) == null ==> fresh(e) && e.handlers == map[]
      ensures events == e && components == old(components) && data == old(data)
    {
      if events == null {
        events := new Events();
      }
      e := events;
    }

    method NewComponents() returns (c: Store<Component>)
      modifies this
      ensures old(components) != null ==> c == old(components)
      ensures old(components) == null ==> fresh(c) && c.values == map[]
      ensures components == c && events == old(events) && data == old(data)
    {
      if components == null {
        components := new Store<Component>();
      }
      c := components;
    }

    method NewData() returns (d: Store<Value>)
      modifies this
      ensures old(data) != null ==> d == old(data)
      ensures old(data) == null ==> fresh(d) && d.values == map[]
      ensures data == d && events == old(events) && components == old(components)
    {
      if data == null {
        data := new Store<Value>();
      }
      d := data;
    }
  }

  /** The events one step of `iter` fires: a marker's `start_<marker>`, or the two
      events of the test case workflow. Storing the current case fires none. */
  function Fired(e: Event): seq<string>
  {
    match e
    case SetCurrent(_) => []
    case Trigger(name) => [name]
    case RunWorkflow => ["start_single_test_case", "start_data_collection"]
  }

  function FiredAll(events: seq<Event>): seq<string>
  {
    if |events| == 0 then [] else FiredAll(events[..|events| - 1]) + Fired(events[|events| - 1])
  }

  lemma {:induction false} FiredAllAppend(a: seq<Event>, b: seq<Event>)
    ensures FiredAll(a + b) == FiredAll(a) + FiredAll(b)
    decreases |b|
  {
    if |b| > 0 {
      assert (a + b)[..|a + b| - 1] == a + b[..|b| - 1];
      FiredAllAppend(a, b[..|b| - 1]);
    } else {
      assert a + b == a;
    }
  }

  lemma FiredAllSnoc(steps: seq<Event>, k: nat)
    requires k < |steps|
    ensures FiredAll(steps[..k + 1]) == FiredAll(steps[..k]) + Fired(steps[k])
  {
    assert steps[..k + 1][..k] == steps[..k];
  }

  function MarkerEvents(markers: seq<string>): seq<string>
  {
    seq(|markers|, k requires 0 <= k < |markers| => "start_" + markers[k])
  }

  lemma {:induction false} FiredTriggers(markers: seq<string>)
    ensures FiredAll(Triggers(markers)) == MarkerEvents(markers)
  {
    if |markers| > 0 {
      var n := |markers|;
      assert Triggers(markers)[..n - 1] == Triggers(markers[..n - 1]);
      FiredTriggers(markers[..n - 1]);
      assert MarkerEvents(markers) == MarkerEvents(markers[..n - 1]) + ["start_" + markers[n - 1]];
    }
  }

  /** The events fired for one test case: its marker events, then the two events
      of the workflow. */
  function CaseEvents(c: Case): seq<string>
  {
    MarkerEvents(c.markers) + ["start_single_test_case", "start_data_collection"]
  }

  /** The events fired for each test case of `cases`, in order. */
  function PerCase(cases: seq<Case>): seq<string>
  {
    if |cases| == 0 then [] else PerCase(cases[..|cases| - 1]) + CaseEvents(cases[|cases| - 1])
  }

  lemma FiredOne(e: Event)
    ensures FiredAll([e]) == Fired(e)
  {
    assert [e][..0] == [];
  }

  lemma FiredVisit(c: Case)
    ensures FiredAll(Visit(c)) == CaseEvents(c)
  {
    var head, triggers := [SetCurrent(c)], Triggers(c.markers);
    FiredAllAppend(head + triggers, [RunWorkflow]);
    FiredAllAppend(head, triggers);
    FiredTriggers(c.markers);
    FiredOne(SetCurrent(c));
    FiredOne(RunWorkflow);
    assert FiredAll(head) == [];
  }

  /** For each test case, its marker events and then `start_single_test_case` and
      `start_data_collection`. */
  lemma {:induction false} FiredPerCase(cases: seq<Case>)
    ensures FiredAll(Trace(cases)) == PerCase(cases)
  {
    if |cases| > 0 {
      var c := cases[|cases| - 1];
      FiredPerCase(cases[..|cases| - 1]);
      FiredAllAppend(Trace(cases[..|cases| - 1]), Visit(c));
      FiredVisit(c);
    }
  }

  /** Marker events start with `start_`, so no test case fires `end_experiment`. */
  lemma {:induction false} NoEndDuringCases(cases: seq<Case>)
    ensures "end_experiment" !in PerCase(cases)
  {
    if |cases| > 0 {
      NoEndDuringCases(cases[..|cases| - 1]);
      var markers := cases[|cases| - 1].markers;
      forall k | 0 <= k < |markers| ensures MarkerEvents(markers)[k] != "end_experiment" {
        assert MarkerEvents(markers)[k][0] == 's';
      }
      assert "start_single_test_case"[0] != "end_experiment"[0];
      assert "start_data_collection"[0] != "end_experiment"[0];
    }
  }

  /** The handlers called for `fired`, event by event. */
  function CalledFor(handlers: map<string, seq<Handler>>, fired: seq<string>): seq<Handler>
  {
    if |fired| == 0 then [] else CalledFor(handlers, fired[..|fired| - 1]) + HandlersOf(handlers, fired[|fired| - 1])
  }

  /** The events `run` fires when the test cases generate: `start_experiment`,
      `init_environment`, each case's events, and `end_experiment` once, last. */
  function RunFired(cases: seq<Case>): seq<string>
  {
    ["start_experiment", "init_environment"] + PerCase(cases) + ["end_experiment"]
  }

  lemma EndOnce(cases: seq<Case>)
    ensures RunFired(cases)[..2] == ["start_experiment", "init_environment"]
    ensures RunFired(cases)[|RunFired(cases)| - 1] == "end_experiment"
    ensures "end_experiment" !in RunFired(cases)[..|RunFired(cases)| - 1]
  {
    NoEndDuringCases(cases);
    var r := RunFired(cases);
    assert r[..|r| - 1] == ["start_experiment", "init_environment"] + PerCase(cases);
    assert "start_experiment" != "end_experiment" && "init_environment" != "end_experiment" by {
      assert "start_experiment"[0] != "end_experiment"[0];
      assert "init_environment"[0] != "end_experiment"[0];
    }
  }

  /** `BaseManager`: the shared registries and the built-in workflow. */
  /** What `data.get("test_cases")` returns once the opening events have run:
      the value their handlers stored, else what was there before. */
  function AfterOpening(opening: Option<Value>, before: map<string, Value>): Option<Value>
  {
    if opening.Some? then opening
    else if "test_cases" in before then Some(before["test_cases"])
    else None
  }

  /** The `TestCases` object a stored value holds, if any. */
  function TestCasesIn(v: Option<Value>): set<object>
  {
    if v.Some? && v.value.TestCasesValue? then {v.value.testCases} else {}
  }

  class BaseManager {
    const events: Events
    const components: Store<Component>
    const data: Store<Value>

    constructor(instances: Instances)
      modifies instances
      ensures events == instances.events && components == instances.components && data == instances.data
      ensures old(instances.events) != null ==> events == old(instances.events)
      ensures old(instances.data) != null ==> data == old(instances.data)
      ensures old(instances.components) != null ==> components == old(instances.components)
    {
      var e := instances.NewEvents();
      var c := instances.NewComponents();
      var d := instances.NewData();
      events, components, data := e, c, d;
    }

    /** Fires one event and records it. */
    method Fire(event: string, fired: seq<string>, called: seq<Handler>) returns (fired': seq<string>, called': seq<Handler>)
      requires called == CalledFor(events.handlers, fired)
      ensures fired' == fired + [event]
      ensures called' == CalledFor(events.handlers, fired')
    {
      var calls := events.Trigger(event);
      fired' := fired + [event];
      called' := called + calls;
      assert fired'[..|fired'| - 1] == fired;
    }

    /** One step of `iter`: store the current test case, fire a marker's event,
        or run the workflow. */
    method Replay(step: Event, fired: seq<string>, called: seq<Handler>) returns (fired': seq<string>, called': seq<Handler>)
      requires called == CalledFor(events.handlers, fired)
      modifies data
      ensures fired' == fired + Fired(step)
      ensures called' == CalledFor(events.handlers, fired')
      ensures step.SetCurrent? ==> data.values == old(data.values)["current_test_case" := CaseValue(step.testCase)]
      ensures !step.SetCurrent? ==> data.values == old(data.values)
    {
      match step
      case SetCurrent(c) =>
        data.Set("current_test_case", CaseValue(c));
        fired', called' := fired, called;
      case Trigger(name) =>
        fired', called' := Fire(name, fired, called);
      case RunWorkflow =>
        fired', called' := Fire("start_single_test_case", fired, called);
        fired', called' := Fire("start_data_collection", fired', called');
    }

    /** The steps of `iter`, in order. */
    method ReplayAll(steps: seq<Event>, fired: seq<string>, called: seq<Handler>) returns (fired': seq<string>, called': seq<Handler>)
      requires called == CalledFor(events.handlers, fired)
      modifies data
      ensures fired' == fired + FiredAll(steps)
      ensures called' == CalledFor(events.handlers, fired')
    {
      fired', called' := fired, called;
      for k := 0 to |steps|
        invariant fired' == fired + FiredAll(steps[..k])
        invariant called' == CalledFor(events.handlers, fired')
      {
        FiredAllSnoc(steps, k);
        fired', called' := Replay(steps[k], fired', called');
      }
      assert steps[..|steps|] == steps;
    }

    /** `run`: `start_experiment` and `init_environment`, whose handlers may store
        a value under `test_cases` (`opening`; the `start_experiment` handler of
        AEFM/manager/handlers.py stores the configured test cases there); then
        `test_cases` from `data`, which must be a `TestCases` (AssertionError
        otherwise); then every test case, storing it as `current_test_case` and
        firing its events; then `end_experiment`. Returns the events fired and the
        handlers called, in order, even when it fails part-way. */
    method Run(opening: Option<Value>) returns (r: Result<()>, fired: seq<string>, called: seq<Handler>)
      modifies data, TestCasesIn(AfterOpening(opening, data.values))
      ensures called == CalledFor(events.handlers, fired)
      ensures |fired| >= 2 && fired[..2] == ["start_experiment", "init_environment"]
      ensures !(AfterOpening(opening, old(data.values)).Some? && AfterOpening(opening, old(data.values)).value.TestCasesValue?) ==>
        r == Err(AssertionError) && fired == ["start_experiment", "init_environment"]
      ensures AfterOpening(opening, old(data.values)).Some? && AfterOpening(opening, old(data.values)).value.TestCasesValue? ==>
        var tc := AfterOpening(opening, old(data.values)).value.testCases;
        var cases := GenerateResult(tc.plan, old(tc.generated), false);
        && (cases.Err? ==> r == Err(cases.error) && fired == ["start_experiment", "init_environment"])
        && (cases.Ok? ==> r.Ok? && fired == RunFired(cases.value))
    {
      fired, called := [], [];
      assert CalledFor(events.handlers, []) == [];
      fired, called := Fire("start_experiment", fired, called);
      fired, called := Fire("init_environment", fired, called);
      assert fired == ["start_experiment", "init_environment"];
      if opening.Some? {
        data.Set("test_cases", opening.value);
      }
      var testCases := data.Get("test_cases");
      if testCases.None? || !testCases.value.TestCasesValue? {
        return Err(AssertionError), fired, called;
      }
      var tc := testCases.value.testCases;
      var total := tc.Len();
      if total.Err? {
        return Err(total.error), fired, called;
      }
      GenerateCached(tc.plan, old(tc.generated));
      var trace := tc.Iter();
      var steps := trace.value;
      fired, called := ReplayAll(steps, fired, called);
      var cases := GenerateResult(tc.plan, old(tc.generated), false).value;
      FiredPerCase(cases);
      fired, called := Fire("end_experiment", fired, called);
      assert fired == RunFired(cases);
      EndOnce(cases);
      return Ok(()), fired, called;
    }
  }
}
