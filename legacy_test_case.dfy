/** The earlier `TestCase` (models/test_case.py): interferences are three
    parallel lists of types, configurations and counts, and the text form lists
    every field separated by `, `. */
module LegacyTestCase {
  import opened Wrappers
  import opened Strings
  import opened OrderedMaps
  import TestCaseModel

  type Workload = TestCaseModel.Workload

  /** An interference generator's configuration. */
  type Configs = OMap<string, string>

  /** `TestCase.Interference`: parallel lists, one entry per interference kind. */
  class Interference {
    var infTypes: seq<string>
    var infConfigs: seq<Configs>
    var infCount: seq<int>

    /** The three lists describe the same kinds: they have the same length. */
    ghost predicate Valid()
      reads this
    {
      |infTypes| == |infConfigs| == |infCount|
    }

    constructor()
      ensures infTypes == [] && infConfigs == [] && infCount == [] && Valid()
    {
      infTypes, infConfigs, infCount := [], [], [];
    }

    /** `copy`: new lists holding the same entries. */
    method Copy() returns (c: Interference)
      requires Valid()
      ensures fresh(c) && c.Valid()
      ensures c.infTypes == infTypes && c.infConfigs == infConfigs && c.infCount == infCount
    {
      c := new Interference();
      c.infTypes, c.infConfigs, c.infCount := infTypes, infConfigs, infCount;
    }
  }

  /** The contents of a test case, as a value. `workload` is None until
      `set_workload` is called: `__init__` only annotates the attribute. */
  datatype Case = Case(
    workload: Option<Workload>,
    infTypes: seq<string>,
    infConfigs: seq<Configs>,
    infCount: seq<int>,
    round: Option<int>,
    markers: seq<string>,
    additional: OMap<string, int>)

  /** `f"{inf_type}: {inf_count}"` for the pairs of `zip(inf_types, inf_count)`,
      which stops at the shorter list. */
  function InfParts(types: seq<string>, counts: seq<int>): (parts: seq<string>)
    ensures |parts| == if |types| < |counts| then |types| else |counts|
  {
    var n := if |types| < |counts| then |types| else |counts|;
    seq(n, i requires 0 <= i < n => types[i] + ": " + IntToString(counts[i]))
  }

  /** Python's `repr` of a dictionary with string keys and integer values. */
  function DictRepr(m: OMap<string, int>): string
  {
    "{" + Join(", ", seq(|m|, i requires 0 <= i < |m| => "'" + m[i].0 + "': " + IntToString(m[i].1))) + "}"
  }

  /** The parts of `__str__`: the round and the throughput when present, each
      interference's `type: count`, then the additional dictionary when it is not
      empty. */
  function Parts(c: Case): seq<string>
  {
    (if c.round.Some? then ["round: " + IntToString(c.round.value)] else [])
    + (if c.workload.Some? then ["throughput: " + IntToString(c.workload.value.throughput)] else [])
    + InfParts(c.infTypes, c.infCount)
    + (if |c.additional| != 0 then [DictRepr(c.additional)] else [])
  }

  /** Every part followed by `", "`, as `__str__` accumulates them. */
  function Separated(parts: seq<string>): string
  {
    if |parts| == 0 then "" else Separated(parts[..|parts| - 1]) + parts[|parts| - 1] + ", "
  }

  /** Following every part by `", "` and cutting the last two characters is
      joining with `", "`. */
  lemma {:induction false} SeparatedIsJoin(parts: seq<string>)
    requires |parts| > 0
    ensures Separated(parts) == Join(", ", parts) + ", "
  {
    var front := parts[..|parts| - 1];
    var last := parts[|parts| - 1];
    assert parts == front + [last];
    if |front| > 0 {
      SeparatedIsJoin(front);
      JoinSnoc(", ", front, last);
    }
  }

  lemma SeparatedSnoc(parts: seq<string>, s: string)
    ensures Separated(parts + [s]) == Separated(parts) + s + ", "
  {
    assert (parts + [s])[..|parts|] == parts;
  }

  /** The earlier `TestCase`. */
  class TestCase {
    var workload: Option<Workload>
    var interferences: Interference
    var round: Option<int>
    var markers: seq<string>
    var additional: OMap<string, int>

    ghost predicate Valid()
      reads this, interferences
    {
      interferences.Valid() && NoDupKeys(additional)
    }

    /** The object's contents as a value. */
    function Snapshot(): Case
      reads this, interferences
    {
      Case(workload, interferences.infTypes, interferences.infConfigs, interferences.infCount,
        round, markers, additional)
    }

    constructor()
      ensures Valid() && fresh(interferences)
      ensures Snapshot() == Case(None, [], [], [], None, [], [])
    {
      workload := None;
      interferences := new Interference();
      round := None;
      markers := [];
      additional := [];
    }

    /** `set_additional`: writes the key, overwriting an earlier value. */
    method SetAdditional(key: string, value: int)
      requires Valid()
      modifies this
      ensures interferences == old(interferences) && Valid()
      ensures Snapshot() == old(Snapshot()).(additional := Put(old(additional), key, value))
      ensures Get(additional, key) == Some(value)
    {
      KeysPut(additional, key, value);
      GetPutSame(additional, key, value);
      additional := Put(additional, key, value);
    }

    method SetWorkload(w: Workload)
      requires Valid()
      modifies this
      ensures interferences == old(interferences) && Valid()
      ensures Snapshot() == old(Snapshot()).(workload := Some(w))
    {
      workload := Some(w);
    }

    method SetRound(r: int)
      requires Valid()
      modifies this
      ensures interferences == old(interferences) && Valid()
      ensures Snapshot() == old(Snapshot()).(round := Some(r))
    {
      round := Some(r);
    }

    method AppendMarker(marker: string)
      requires Valid()
      modifies this
      ensures interferences == old(interferences) && Valid()
      ensures Snapshot() == old(Snapshot()).(markers := old(markers) + [marker])
    {
      markers := markers + [marker];
    }

    /** `append_inf`: one more entry at the end of each of the three lists, so
        they stay the same length. */
    method AppendInf(infType: string, infConfigs: Configs, infCount: int)
      requires Valid()
      modifies interferences
      ensures Valid()
      ensures Snapshot() == old(Snapshot()).(
        infTypes := old(interferences.infTypes) + [infType],
        infConfigs := old(interferences.infConfigs) + [infConfigs],
        infCount := old(interferences.infCount) + [infCount])
    {
      interferences.infTypes := interferences.infTypes + [infType];
      interferences.infConfigs := interferences.infConfigs + [infConfigs];
      interferences.infCount := interferences.infCount + [infCount];
    }

    /** `copy`: a new test case with new interference lists holding the same
        contents; reading `workload` raises AttributeError when it was never set. */
    method Copy() returns (r: Result<TestCase>)
      requires Valid()
      ensures r.Err? <==> workload.None?
      ensures r.Err? ==> r.error == AttributeError
      ensures r.Ok? ==> fresh(r.value) && fresh(r.value.interferences) && r.value.Valid()
      ensures r.Ok? ==> r.value.Snapshot() == Snapshot()
    {
      if workload.None? {
        return Err(AttributeError);
      }
      var c := new TestCase();
      c.workload := workload;
      c.interferences := interferences.Copy();
      c.round := round;
      c.markers := markers;
      c.additional := additional;
      return Ok(c);
    }

    /** `__str__`: the parts separated by `", "` between brackets; reading
        `workload` raises AttributeError when it was never set. */
    method Str() returns (r: Result<string>)
      requires Valid()
      ensures r.Err? <==> workload.None?
      ensures r.Err? ==> r.error == AttributeError
      ensures r.Ok? ==> r.value == "[" + Join(", ", Parts(Snapshot())) + "]"
    {
      var head := if round.Some? then ["round: " + IntToString(round.value)] else [];
      if workload.None? {
        return Err(AttributeError);
      }
      head := head + ["throughput: " + IntToString(workload.value.throughput)];
      var content := Separate("", [], head);
      var parts := head + InfParts(interferences.infTypes, interferences.infCount);
      content := Separate(content, head, InfParts(interferences.infTypes, interferences.infCount));
      if |additional| != 0 {
        content := Separate(content, parts, [DictRepr(additional)]);
        parts := parts + [DictRepr(additional)];
      }
      assert parts == Parts(Snapshot());
      SeparatedIsJoin(parts);
      // the text so far follows `"["`; dropping its last two characters leaves
      // the join
      return Ok("[" + content[..|content| - 2] + "]");
    }
  }

  /** Appends each of `more` followed by `", "` to `content`. */
  method Separate(content: string, done: seq<string>, more: seq<string>) returns (c: string)
    requires content == Separated(done)
    ensures c == Separated(done + more)
  {
    c := content;
    assert done + more[..0] == done;
    for i := 0 to |more|
      invariant c == Separated(done + more[..i])
    {
      assert done + more[..i + 1] == (done + more[..i]) + [more[i]];
      SeparatedSnoc(done + more[..i], more[i]);
      c := c + more[i] + ", ";
    }
    assert more[..|more|] == more;
  }
}
