/** The earlier registries (manager/interfaces.py, and the same classes at the
    top of experiment/experiement_manager.py) and the built-in workflow of
    experiment/experiement_manager.py. Each event has at most one handler, and
    `trigger` returns what that handler returns. A handler is a function of no
    arguments; what it does besides returning a value is outside the model. */
module LegacyManager {
  import opened Wrappers
  import Manager
  import opened LegacyTestCase

  /** `_Events`: at most one handler per event, stored as an attribute named
      after the event. */
  class Events<R> {
    var handlers: map<string, () -> R>

    constructor()
      ensures handlers == map[]
    {
      handlers := map[];
    }

    /** `register`: the handler replaces whatever the event had. */
    method Register(event: string, handler: () -> R)
      modifies this
      ensures handlers == old(handlers)[event := handler]
      ensures Handles(event, handler)
      ensures forall other :: other != event ==> (other in handlers <==> other in old(handlers))
    {
      handlers := handlers[event := handler];
    }

    /** The event's handler is `handler`. */
    ghost predicate Handles(event: string, handler: () -> R)
      reads this
    {
      event in handlers && handlers[event] == handler
    }

    /** `trigger`: nothing is called and None is returned for an event without a
        handler; otherwise the handler is called and its result returned. */
    method Trigger(event: string) returns (r: Option<R>)
      ensures r.None? <==> event !in handlers
      ensures forall h :: Handles(event, h) ==> r == Some(h())
    {
      if event !in handlers {
        return None;
      }
      var handler := handlers[event];
      r := Some(handler());
    }
  }

  /** `_Components`: named components stored as attributes. */
  class Components<V> {
    var values: map<string, V>

    constructor()
      ensures values == map[]
    {
      values := map[];
    }

    method Set(name: string, component: V)
      modifies this
      ensures values == old(values)[name := component]
    {
      values := values[name := component];
    }

    /** `get`: `__getattribute__` raises AttributeError for a name never set,
        unlike `_Data.get`, which returns None. */
    method Get(name: string) returns (r: Result<V>)
      ensures r.Err? <==> name !in values
      ensures r.Err? ==> r.error == AttributeError
      ensures r.Ok? ==> r.value == values[name]
    {
      if name !in values {
        return Err(AttributeError);
      }
      return Ok(values[name]);
    }
  }

  /** A component, named by its registry key. */
  type Component = string

  /** What the workflow reads from and writes to `_Data`: the list of test cases,
      the current test case, or anything else. */
  datatype Value = CasesValue(cases: seq<Case>) | CaseValue(testCase: Case) | OtherValue(tag: string)

  /** The class attribute `instance` of the three registries: each is created on
      first construction and returned by every later one. */
  class Registries<R> {
    var events: Events?<R>
    var components: Components?<Component>
    var data: Manager.Store?<Value>

    constructor()
      ensures events == null && components == null && data == null
    {
      events, components, data := null, null, null;
    }

    method NewEvents() returns (e: Events<R>)
      modifies this
      ensures old(events) != null ==> e == old(events)
      ensures old(events) == null ==> fresh(e) && e.handlers == map[]
      ensures events == e && components == old(components) && data == old(data)
    {
      if events == null {
        events := new Events();
      }
      e := events;
    }

    method NewComponents() returns (c: Components<Component>)
      modifies this
      ensures old(components) != null ==> c == old(components)
      ensures old(components) == null ==> fresh(c) && c.values == map[]
      ensures components == c && events == old(events) && data == old(data)
    {
      if components == null {
        components := new Components();
      }
      c := components;
    }

    method NewData() returns (d: Manager.Store<Value>)
      modifies this
      ensures old(data) != null ==> d == old(data)
      ensures old(data) == null ==> fresh(d) && d.values == map[]
      ensures data == d && events == old(events) && components == old(components)
    {
      if data == null {
        data := new Manager.Store();
      }
      d := data;
    }
  }

  /** The events `run` fires before the first test case. */
  const Opening: seq<string> := ["start_experiment", "init_environment", "generate_test_cases"]

  /** The events `run` fires for each test case. */
  const CaseEvents: seq<string> := ["start_single_test_case", "start_data_collection", "update_environment"]

  const EndEvent: string := "end_experiment"

  /** The events fired for the test cases of `cases`, in order. */
  function PerCase(cases: seq<Case>): seq<string>
  {
    if |cases| == 0 then [] else PerCase(cases[..|cases| - 1]) + CaseEvents
  }

  /** The events `run` fires when `test_cases` holds `cases`. */
  function RunFired(cases: seq<Case>): seq<string>
  {
    Opening + PerCase(cases) + [EndEvent]
  }

  /** Each test case fires its three events in a block of its own, in the order
      of the cases. */
  lemma {:induction false} PerCaseBlocks(cases: seq<Case>)
    ensures |PerCase(cases)| == 3 * |cases|
    ensures forall k :: 0 <= k < |cases| ==> PerCase(cases)[3 * k..3 * k + 3] == CaseEvents
    ensures EndEvent !in PerCase(cases)
  {
    if |cases| > 0 {
      var front := cases[..|cases| - 1];
      PerCaseBlocks(front);
      var p := PerCase(front);
      assert PerCase(cases) == p + CaseEvents;
      forall k | 0 <= k < |cases| ensures PerCase(cases)[3 * k..3 * k + 3] == CaseEvents {
        if k < |front| {
          assert PerCase(cases)[3 * k..3 * k + 3] == p[3 * k..3 * k + 3];
        } else {
          assert PerCase(cases)[3 * k..3 * k + 3] == CaseEvents;
        }
      }
      assert EndEvent !in CaseEvents by {
        assert EndEvent[0] != CaseEvents[0][0];
        assert EndEvent[0] != CaseEvents[1][0];
        assert EndEvent[0] != CaseEvents[2][0];
      }
    }
  }

  /** `run` fires `start_experiment`, `init_environment` and
      `generate_test_cases`, then the three events of test case `k` at positions
      `3 + 3k` to `5 + 3k`, and `end_experiment` once, last. */
  lemma RunOrder(cases: seq<Case>)
    ensures |RunFired(cases)| == 4 + 3 * |cases|
    ensures RunFired(cases)[..3] == Opening
    ensures forall k :: 0 <= k < |cases| ==> RunFired(cases)[3 + 3 * k..6 + 3 * k] == CaseEvents
    ensures RunFired(cases)[|RunFired(cases)| - 1] == EndEvent
    ensures EndEvent !in RunFired(cases)[..|RunFired(cases)| - 1]
  {
    PerCaseBlocks(cases);
    var r := RunFired(cases);
    forall k | 0 <= k < |cases| ensures r[3 + 3 * k..6 + 3 * k] == CaseEvents {
      assert r[3 + 3 * k..6 + 3 * k] == PerCase(cases)[3 * k..3 * k + 3];
    }
    assert r[..|r| - 1] == Opening + PerCase(cases);
    assert EndEvent !in Opening by {
      assert EndEvent[0] != Opening[0][0];
      assert EndEvent[0] != Opening[1][0];
      assert EndEvent[0] != Opening[2][0];
    }
  }

  /** `ExperimentManager`: the shared registries and the built-in workflow. */
  class ExperimentManager<R> {
    const events: Events<R>
    const components: Components<Component>
    const data: Manager.Store<Value>

    constructor(registries: Registries<R>)
      modifies registries
      ensures events == registries.events && components == registries.components && data == registries.data
      ensures old(registries.events) != null ==> events == old(registries.events)
      ensures old(registries.components) != null ==> components == old(registries.components)
      ensures old(registries.data) != null ==> data == old(registries.data)
    {
      var e := registries.NewEvents();
      var c := registries.NewComponents();
      var d := registries.NewData();
      events, components, data := e, c, d;
    }

    /** Triggers one event and records it; the handler's result is dropped. */
    method Fire(event: string, fired: seq<string>) returns (fired': seq<string>)
      ensures fired' == fired + [event]
    {
      var _ := events.Trigger(event);
      fired' := fired + [event];
    }

    /** The three events of one test case, after storing it as
        `current_test_case`. */
    method RunCase(testCase: Case, fired: seq<string>) returns (fired': seq<string>)
      modifies data
      ensures fired' == fired + CaseEvents
      ensures data.values == old(data.values)["current_test_case" := CaseValue(testCase)]
    {
      data.Set("current_test_case", CaseValue(testCase));
      fired' := Fire("start_single_test_case", fired);
      fired' := Fire("start_data_collection", fired');
      fired' := Fire("update_environment", fired');
    }

    /** `run`: the opening events; then every element of `data.get("test_cases")`,
        stored as `current_test_case` and followed by its three events; then
        `end_experiment`. Iterating a value that is not a list of test cases
        (None when nothing was stored) raises TypeError after the opening
        events. Returns the events fired, in order. */
    method Run() returns (r: Result<()>, fired: seq<string>)
      modifies data
      ensures !("test_cases" in old(data.values) && old(data.values)["test_cases"].CasesValue?) ==>
        r == Err(TypeError) && fired == Opening && data.values == old(data.values)
      ensures "test_cases" in old(data.values) && old(data.values)["test_cases"].CasesValue? ==>
        var cases := old(data.values)["test_cases"].cases;
        && r.Ok? && fired == RunFired(cases)
        && data.values == if |cases| == 0 then old(data.values)
          else old(data.values)["current_test_case" := CaseValue(cases[|cases| - 1])]
    {
      fired := Fire("start_experiment", []);
      fired := Fire("init_environment", fired);
      fired := Fire("generate_test_cases", fired);
      var testCases := data.Get("test_cases");
      if testCases.None? || !testCases.value.CasesValue? {
        return Err(TypeError), fired;
      }
      var cases := testCases.value.cases;
      for i := 0 to |cases|
        invariant fired == Opening + PerCase(cases[..i])
        invariant data.values == if i == 0 then old(data.values)
          else old(data.values)["current_test_case" := CaseValue(cases[i - 1])]
      {
        assert cases[..i + 1][..i] == cases[..i];
        fired := RunCase(cases[i], fired);
      }
      assert cases[..|cases|] == cases;
      fired := Fire("end_experiment", fired);
      return Ok(()), fired;
    }
  }
}
