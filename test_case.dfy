/** `TestCase` (AEFM/models/test_case.py): one point of an experiment's parameter
    grid, with its interference counts, workload, round, markers and additional
    values, and the name and dictionary built from them. */
module TestCaseModel {
  import opened Wrappers
  import opened Strings
  import opened Seqs
  import opened OrderedMaps

  /** The workload generator's configuration, carried along unchanged. */
  type Configs = OMap<string, string>

  /** `TestCase.Workload`: requests per second and the generator configuration. It
      is never updated after construction, so it is a value and its `copy` is the
      value itself. */
  datatype Workload = Workload(throughput: int, configs: Configs)

  /** The contents of a test case, as a value. */
  datatype Case = Case(
    workload: Option<Workload>,
    interferences: OMap<string, int>,
    round: Option<int>,
    markers: seq<string>,
    additional: OMap<string, int>)

  /** A test case straight from `TestCase()`. */
  const Blank: Case := Case(None, [], None, [], [])

  // ---------------------------------------------------------------- the name

  /** `"<key>=<value>"` for every pair of `m`, in insertion order. */
  function Pairs(m: OMap<string, int>): seq<string>
  {
    seq(|m|, i requires 0 <= i < |m| => m[i].0 + "=" + IntToString(m[i].1))
  }

  /** The `round=` and `throughput=` segments, present only when set. */
  function Head(c: Case): seq<string>
  {
    (if c.round.Some? then ["round=" + IntToString(c.round.value)] else [])
    + (if c.workload.Some? then ["throughput=" + IntToString(c.workload.value.throughput)] else [])
  }

  /** The segments of the name: round, throughput, interferences, additional values. */
  function Segments(c: Case): seq<string>
  {
    Head(c) + Pairs(c.interferences) + Pairs(c.additional)
  }

  /** The test case's name: its segments separated by `|`. */
  function Name(c: Case): string
  {
    Join("|", Segments(c))
  }

  /** Every segment followed by `|`, as `generate_name` accumulates them. */
  function Terminated(segments: seq<string>): string
  {
    if |segments| == 0 then ""
    else Terminated(segments[..|segments| - 1]) + segments[|segments| - 1] + "|"
  }

  /** Python's `s[:-1]`: everything but the last character, `""` for `""`. */
  function DropLast(s: string): (r: string)
    ensures |s| > 0 ==> s == r + [s[|s| - 1]]
    ensures |s| == 0 ==> r == ""
  {
    if |s| == 0 then "" else s[..|s| - 1]
  }

  /** Terminating every segment and dropping the last `|` is joining with `|`. */
  lemma {:induction false} TerminatedIsJoin(segments: seq<string>)
    ensures |segments| > 0 ==> Terminated(segments) == Join("|", segments) + "|"
    ensures DropLast(Terminated(segments)) == Join("|", segments)
  {
    if |segments| > 0 {
      var front := segments[..|segments| - 1];
      var last := segments[|segments| - 1];
      assert segments == front + [last];
      if |front| > 0 {
        TerminatedIsJoin(front);
        JoinSnoc("|", front, last);
      }
      assert Terminated(segments) == Join("|", segments) + "|";
      assert DropLast(Terminated(segments)) == Join("|", segments);
    }
  }

  /** The step that appends one segment. */
  lemma TerminatedSnoc(segments: seq<string>, s: string)
    ensures Terminated(segments + [s]) == Terminated(segments) + s + "|"
  {
    assert (segments + [s])[..|segments|] == segments;
  }

  lemma PairsSnoc(m: OMap<string, int>, i: nat)
    requires i < |m|
    ensures Pairs(m[..i + 1]) == Pairs(m[..i]) + [m[i].0 + "=" + IntToString(m[i].1)]
  {
  }

  /** Appending the segment of the pair at `i` of `m`, after the segments `front`:
      the step of both loops of `generate_name`. */
  lemma PairsStep(front: seq<string>, m: OMap<string, int>, i: nat)
    requires i < |m|
    ensures Terminated(front + Pairs(m[..i + 1])) ==
      Terminated(front + Pairs(m[..i])) + m[i].0 + "=" + IntToString(m[i].1) + "|"
  {
    var key, value := m[i].0, IntToString(m[i].1);
    var seg := key + "=" + value;
    PairsSnoc(m, i);
    Assoc(front, Pairs(m[..i]), [seg]);
    TerminatedSnoc(front + Pairs(m[..i]), seg);
    var t := Terminated(front + Pairs(m[..i]));
    Assoc(t, key, "=");
    Assoc(t, key + "=", value);
  }

  /** The round and throughput segments, each followed by `|`. */
  lemma HeadTerminated(c: Case)
    ensures Terminated(Head(c)) ==
      (if c.round.Some? then "round=" + IntToString(c.round.value) + "|" else "")
      + (if c.workload.Some? then "throughput=" + IntToString(c.workload.value.throughput) + "|" else "")
  {
    if c.round.Some? && c.workload.Some? {
      TerminatedSnoc(["round=" + IntToString(c.round.value)], "throughput=" + IntToString(c.workload.value.throughput));
    } else if c.workload.Some? {
      TerminatedSnoc([], "throughput=" + IntToString(c.workload.value.throughput));
    } else if c.round.Some? {
      TerminatedSnoc([], "round=" + IntToString(c.round.value));
    }
  }

  /** `__str__`: the name in brackets, with `|` shown as `, ` and `=` as `: `. */
  function Display(c: Case): string
  {
    "[" + ReplaceChar(ReplaceChar(Name(c), '|', ", "), '=', ": ") + "]"
  }

  /** The segments shown by `__str__`, with `=` shown as `: `. */
  function Labels(c: Case): seq<string>
  {
    var segments := Segments(c);
    seq(|segments|, i requires 0 <= i < |segments| => ReplaceChar(segments[i], '=', ": "))
  }

  /** When no key contains `|`, `__str__` lists the labelled segments separated by
      `, `. */
  lemma DisplayLists(c: Case)
    requires forall s <- Segments(c) :: '|' !in s
    ensures Display(c) == "[" + Join(", ", Labels(c)) + "]"
  {
    var segments := Segments(c);
    ReplaceJoin("|", segments, '|', ", ");
    assert ReplaceChar("|", '|', ", ") == ", ";
    var once := seq(|segments|, i requires 0 <= i < |segments| => ReplaceChar(segments[i], '|', ", "));
    forall i | 0 <= i < |segments| ensures once[i] == segments[i] {
      assert segments[i] in segments;
      ReplaceAbsent(segments[i], '|', ", ");
    }
    assert once == segments;
    ReplaceJoin(", ", segments, '=', ": ");
    ReplaceAbsent(", ", '=', ": ");
  }

  // ---------------------------------------------------------- the dictionary

  /** The writes `to_dict` makes, in order: round, throughput, interferences,
      additional values. */
  function HeadWrites(c: Case): seq<(string, int)>
  {
    (if c.round.Some? then [("round", c.round.value)] else [])
    + (if c.workload.Some? then [("throughput", c.workload.value.throughput)] else [])
  }

  function Writes(c: Case): seq<(string, int)>
  {
    HeadWrites(c) + c.interferences + c.additional
  }

  /** The dictionary `to_dict` returns. */
  function AsDict(c: Case): OMap<string, int>
  {
    PutAll([], Writes(c))
  }

  /** Writing the pair at `i` of `m` into the dictionary, after the writes `front`:
      the step of both loops of `to_dict`. */
  lemma WritesStep(front: seq<(string, int)>, m: OMap<string, int>, i: nat)
    requires i < |m|
    ensures PutAll([], front + m[..i + 1]) == Put(PutAll([], front + m[..i]), m[i].0, m[i].1)
  {
    assert m[..i + 1] == m[..i] + [m[i]];
    Assoc(front, m[..i], [m[i]]);
    PutAllSnoc([], front + m[..i], m[i].0, m[i].1);
  }

  /** A key of the dictionary holds its last write; keys nobody wrote are absent. */
  lemma AsDictGet(c: Case, key: string)
    ensures Get(AsDict(c), key) == if key in Keys(Writes(c)) then Some(LastValue(Writes(c), key)) else None
  {
    GetPutAll([], Writes(c), key);
  }

  /** The dictionary's keys are the written keys in order of their first write. */
  lemma AsDictKeys(c: Case)
    ensures Keys(AsDict(c)) == Distinct(Keys(Writes(c)))
    ensures NoDupKeys(AsDict(c))
  {
    KeysPutAll([], Writes(c));
    PutAllNoDup([], Writes(c));
  }

  /** `round` is a key exactly when the round is set or an interference or
      additional value is called `round`. */
  lemma RoundKey(c: Case)
    requires "round" !in Keys(c.interferences) && "round" !in Keys(c.additional)
    ensures Get(AsDict(c), "round") == c.round
  {
    AsDictGet(c, "round");
    RoundIsNotThroughput();
    var throughput := if c.workload.Some? then [("throughput", c.workload.value.throughput)] else [];
    var after := throughput + (c.interferences + c.additional);
    assert "round" !in Keys(after) by {
      forall i | 0 <= i < |after| ensures after[i].0 != "round" {
        if i >= |throughput| + |c.interferences| {
          assert after[i] == c.additional[i - |throughput| - |c.interferences|];
        } else if i >= |throughput| {
          assert after[i] == c.interferences[i - |throughput|];
        }
      }
    }
    Assoc(throughput, c.interferences, c.additional);
    if c.round.Some? {
      var first := [("round", c.round.value)];
      assert HeadWrites(c) == first + throughput;
      Assoc(first, throughput, c.interferences);
      Assoc(first, throughput + c.interferences, c.additional);
      LastValueHead("round", c.round.value, after);
    } else {
      assert HeadWrites(c) == throughput;
    }
  }

  lemma RoundIsNotThroughput()
    ensures "round" != "throughput"
  {
    assert "round"[0] != "throughput"[0];
  }

  // ------------------------------------------------------------------ objects

  /** `TestCase.Interference`: interference counts keyed by type, in insertion
      order, with the iterator state `idx` / `inf_types`. */
  class Interference {
    var infCount: OMap<string, int>
    var idx: nat
    var infTypes: seq<string>

    ghost predicate Valid()
      reads this
    {
      NoDupKeys(infCount) && forall t <- infTypes :: t in Keys(infCount)
    }

    constructor()
      ensures infCount == [] && infTypes == [] && idx == 0 && Valid()
    {
      infCount := [];
      idx := 0;
      infTypes := [];
    }

    /** `__iter__`: restart at the first type, in insertion order. */
    method Iter()
      requires Valid()
      modifies this
      ensures infCount == old(infCount) && idx == 0 && infTypes == Keys(infCount) && Valid()
    {
      idx := 0;
      infTypes := Keys(infCount);
    }

    /** `__next__`: the next type with its count, or None for StopIteration. */
    method Next() returns (r: Option<(string, int)>)
      requires Valid()
      modifies this
      ensures infCount == old(infCount) && infTypes == old(infTypes) && Valid()
      ensures old(idx) >= |infTypes| ==> r.None? && idx == old(idx)
      ensures old(idx) < |infTypes| ==>
        idx == old(idx) + 1 && r.Some? && r.value.0 == infTypes[old(idx)] && Get(infCount, r.value.0) == Some(r.value.1)
    {
      if idx >= |infTypes| {
        return None;
      }
      var t := infTypes[idx];
      GetSome(infCount, t);
      r := Some((t, Get(infCount, t).value));
      idx := idx + 1;
    }

    /** What a `for` statement over the object visits: `__iter__`, then `__next__`
        until StopIteration. The pairs come out in insertion order. */
    method Items() returns (items: OMap<string, int>)
      requires Valid()
      modifies this
      ensures items == infCount && infCount == old(infCount) && Valid()
      ensures infTypes == Keys(infCount) && idx == |infTypes|
    {
      Iter();
      items := [];
      while true
        invariant Valid() && infCount == old(infCount) && infTypes == Keys(infCount)
        invariant idx <= |infTypes| && items == infCount[..idx]
        decreases |infTypes| - idx
      {
        var next := Next();
        if next.None? {
          break;
        }
        GetAt(infCount, idx - 1);
        assert infCount[..idx] == infCount[..idx - 1] + [infCount[idx - 1]];
        items := items + [next.value];
      }
      assert infCount[..|infCount|] == infCount;
    }

    /** `__len__`: the number of interference types. */
    function Len(): (n: nat)
      requires Valid()
      reads this
      ensures n == |Distinct(Keys(infCount))|
    {
      DistinctOfNoDup(Keys(infCount));
      |infCount|
    }

    /** `__getitem__`: KeyError for a type never set. */
    function GetItem(key: string): (r: Result<int>)
      reads this
      ensures r.Err? <==> key !in Keys(infCount)
      ensures r.Err? ==> r.error == KeyError
      ensures r.Ok? ==> (key, r.value) in infCount
    {
      GetSome(infCount, key);
      if Get(infCount, key).Some? then GetIn(infCount, key); Ok(Get(infCount, key).value) else Err(KeyError)
    }

    /** `__setitem__`: set or overwrite one type's count. */
    method SetItem(key: string, value: int)
      requires Valid()
      modifies this
      ensures infCount == Put(old(infCount), key, value) && Valid()
      ensures idx == old(idx) && infTypes == old(infTypes)
      ensures GetItem(key) == Ok(value)
    {
      KeysPut(infCount, key, value);
      GetPutSame(infCount, key, value);
      infCount := Put(infCount, key, value);
    }

    /** `copy`: a new object with the same counts. */
    method Copy() returns (c: Interference)
      requires Valid()
      ensures fresh(c) && c.infCount == infCount && c.Valid()
    {
      c := new Interference();
      c.infCount := infCount;
    }
  }

  /** The loops of `generate_name`: every segment followed by `|`, then the last
      character dropped. */
  method ComposeName(c: Case) returns (name: string)
    ensures name == Name(c)
  {
    var content := if c.round.Some? then "round=" + IntToString(c.round.value) + "|" else "";
    content := content + if c.workload.Some? then "throughput=" + IntToString(c.workload.value.throughput) + "|" else "";
    HeadTerminated(c);
    assert Head(c) + Pairs(c.interferences[..0]) == Head(c);
    for i := 0 to |c.interferences|
      invariant content == Terminated(Head(c) + Pairs(c.interferences[..i]))
    {
      var (infType, infCount) := c.interferences[i];
      PairsStep(Head(c), c.interferences, i);
      content := content + infType + "=" + IntToString(infCount) + "|";
    }
    assert c.interferences[..|c.interferences|] == c.interferences;
    var front := Head(c) + Pairs(c.interferences);
    assert front + Pairs(c.additional[..0]) == front;
    for i := 0 to |c.additional|
      invariant content == Terminated(front + Pairs(c.additional[..i]))
    {
      var (key, value) := c.additional[i];
      PairsStep(front, c.additional, i);
      content := content + key + "=" + IntToString(value) + "|";
    }
    assert c.additional[..|c.additional|] == c.additional;
    TerminatedIsJoin(Segments(c));
    name := DropLast(content);
  }

  /** The writes of `to_dict`, in order, into a new dictionary. */
  method ComposeDict(c: Case) returns (d: OMap<string, int>)
    ensures d == AsDict(c)
  {
    d := [];
    if c.round.Some? {
      d := Put(d, "round", c.round.value);
    }
    if c.workload.Some? {
      d := Put(d, "throughput", c.workload.value.throughput);
    }
    assert d == PutAll([], HeadWrites(c)) by {
      if c.round.Some? && c.workload.Some? {
        PutAllSnoc([], [("round", c.round.value)], "throughput", c.workload.value.throughput);
      }
    }
    assert HeadWrites(c) + c.interferences[..0] == HeadWrites(c);
    for i := 0 to |c.interferences|
      invariant d == PutAll([], HeadWrites(c) + c.interferences[..i])
    {
      var (infType, infCount) := c.interferences[i];
      WritesStep(HeadWrites(c), c.interferences, i);
      d := Put(d, infType, infCount);
    }
    assert c.interferences[..|c.interferences|] == c.interferences;
    var front := HeadWrites(c) + c.interferences;
    assert front + c.additional[..0] == front;
    for i := 0 to |c.additional|
      invariant d == PutAll([], front + c.additional[..i])
    {
      var (key, value) := c.additional[i];
      WritesStep(front, c.additional, i);
      d := Put(d, key, value);
    }
    assert c.additional[..|c.additional|] == c.additional;
  }

  /** `TestCase`. */
  class TestCase {
    var workload: Option<Workload>
    var interferences: Interference
    var round: Option<int>
    var markers: seq<string>
    var additional: OMap<string, int>

    ghost predicate Valid()
      reads this, interferences
    {
      interferences.Valid() && NoDupKeys(additional)
    }

    /** The object's contents as a value. */
    function Snapshot(): Case
      reads this, interferences
    {
      Case(workload, interferences.infCount, round, markers, additional)
    }

    constructor()
      ensures Valid() && Snapshot() == Blank && fresh(interferences)
    {
      workload := None;
      interferences := new Interference();
      round := None;
      markers := [];
      additional := [];
    }

    method SetAdditional(key: string, value: int)
      requires Valid()
      modifies this
      ensures interferences == old(interferences) && Valid()
      ensures Snapshot() == old(Snapshot()).(additional := Put(old(additional), key, value))
    {
      KeysPut(additional, key, value);
      additional := Put(additional, key, value);
    }

    method SetWorkload(w: Workload)
      requires Valid()
      modifies this
      ensures interferences == old(interferences) && Valid()
      ensures Snapshot() == old(Snapshot()).(workload := Some(w))
    {
      workload := Some(w);
    }

    method SetRound(r: int)
      requires Valid()
      modifies this
      ensures interferences == old(interferences) && Valid()
      ensures Snapshot() == old(Snapshot()).(round := Some(r))
    {
      round := Some(r);
    }

    method AppendMarker(marker: string)
      requires Valid()
      modifies this
      ensures interferences == old(interferences) && Valid()
      ensures Snapshot() == old(Snapshot()).(markers := old(markers) + [marker])
    {
      markers := markers + [marker];
    }

    method SetInf(infType: string, infCount: int)
      requires Valid()
      modifies interferences
      ensures Valid()
      ensures Snapshot() == old(Snapshot()).(interferences := Put(old(interferences.infCount), infType, infCount))
    {
      interferences.SetItem(infType, infCount);
    }

    /** `copy`: a new test case, with a new interference object, holding the same
        contents; updating either afterwards leaves the other as it was. */
    method Copy() returns (c: TestCase)
      requires Valid()
      ensures fresh(c) && fresh(c.interferences) && c.Valid()
      ensures c.Snapshot() == Snapshot()
    {
      c := new TestCase();
      c.workload := workload;
      c.interferences := interferences.Copy();
      c.round := round;
      c.markers := markers;
      c.additional := additional;
    }

    /** `generate_name`. Iterating the interferences resets their iterator state. */
    method GenerateName() returns (name: string)
      requires Valid()
      modifies interferences
      ensures Valid() && Snapshot() == old(Snapshot())
      ensures name == Name(Snapshot())
    {
      var infs := interferences.Items();
      name := ComposeName(Snapshot().(interferences := infs));
    }

    /** `to_dict`: round, throughput, interference counts and additional values
        written in that order into a new dictionary. */
    method ToDict() returns (d: OMap<string, int>)
      requires Valid()
      modifies interferences
      ensures Valid() && Snapshot() == old(Snapshot())
      ensures d == AsDict(Snapshot())
    {
      var infs := interferences.Items();
      d := ComposeDict(Snapshot().(interferences := infs));
    }

    /** `__str__`. */
    method Str() returns (s: string)
      requires Valid()
      modifies interferences
      ensures Valid() && Snapshot() == old(Snapshot())
      ensures s == Display(Snapshot())
    {
      var name := GenerateName();
      s := "[" + ReplaceChar(ReplaceChar(name, '|', ", "), '=', ": ") + "]";
    }
  }
}
