/** `exact_parent_duration` (utils/trace_processor.py): the exclusive time of every
    parent span, obtained by subtracting its children's merged step time. */
module Decomposer {
  import opened Wrappers
  import opened Spans
  import opened Seqs
  import opened Steps

  /** One row of `steps_df`: `{merged_child_duration, step, child_id}`. */
  datatype Entry = Entry(mergedChildDuration: int, step: nat, childId: string)

  /** A child row after the merge with `steps_df`. */
  datatype Merged = Merged(edge: Edge, mergedChildDuration: int, step: nat)

  /** A row of the output table. */
  datatype DecomposedEdge = DecomposedEdge(edge: Edge, mergedChildDuration: int, step: nat, exactParentDuration: int)

  /** How the merged child time of a group is totalled. */
  datatype Counting =
    | PerRow   // as written: the sum over the group's de-duplicated rows, one term per child
    | PerStep  // as the comments describe it: one term per step

  function Duration(s: Step): int
  {
    s.endTime - s.startTime
  }

  /** The entries of step number `i`, one per member. */
  function StepEntries(s: Step, i: nat): (es: seq<Entry>)
    ensures |es| == |s.members|
    ensures forall k :: 0 <= k < |es| ==> es[k] == Entry(Duration(s), i, s.members[k])
  {
    seq(|s.members|, k requires 0 <= k < |s.members| => Entry(Duration(s), i, s.members[k]))
  }

  /** The comprehension over `enumerate(steps)` and each step's members. */
  function Entries(steps: seq<Step>): seq<Entry>
  {
    if |steps| == 0 then []
    else Entries(steps[..|steps| - 1]) + StepEntries(steps[|steps| - 1], |steps| - 1)
  }

  /** The rows of `steps_df` whose `child_id` is the child's, merged into it. */
  function MatchesFor(c: Edge, es: seq<Entry>): seq<Merged>
  {
    if |es| == 0 then []
    else
      (if es[0].childId == c.childId then [Merged(c, es[0].mergedChildDuration, es[0].step)] else [])
      + MatchesFor(c, es[1..])
  }

  /** `children.merge(steps_df, on="child_id")`: an inner join in the children's order. */
  function MergeOnChild(cs: seq<Edge>, es: seq<Entry>): seq<Merged>
  {
    if |cs| == 0 then [] else MatchesFor(cs[0], es) + MergeOnChild(cs[1..], es)
  }

  function SumMerged(rows: seq<Merged>): int
  {
    if |rows| == 0 then 0 else rows[0].mergedChildDuration + SumMerged(rows[1..])
  }

  function SumSteps(steps: seq<Step>): int
  {
    if |steps| == 0 then 0 else Duration(steps[0]) + SumSteps(steps[1..])
  }

  /** The merged rows of one `(trace_id, parent_id)` group. */
  function GroupRows(cs: seq<Edge>): seq<Merged>
  {
    MergeOnChild(cs, Entries(StepsOf(cs)))
  }

  /** The total subtracted from `parent_duration`. */
  function GroupTotal(cs: seq<Edge>, counting: Counting): int
  {
    match counting
    case PerRow => SumMerged(Distinct(GroupRows(cs)))
    case PerStep => SumSteps(StepsOf(cs))
  }

  function WithExact(rows: seq<Merged>, total: int): (r: seq<DecomposedEdge>)
    ensures |r| == |rows|
    ensures forall i :: 0 <= i < |rows| ==>
      r[i] == DecomposedEdge(rows[i].edge, rows[i].mergedChildDuration, rows[i].step, rows[i].edge.parentDuration - total)
  {
    seq(|rows|, i requires 0 <= i < |rows| =>
      DecomposedEdge(rows[i].edge, rows[i].mergedChildDuration, rows[i].step, rows[i].edge.parentDuration - total))
  }

  /** `process_children_of_same_parent` on children already in start-time order. */
  function ProcessGroup(cs: seq<Edge>, counting: Counting): seq<DecomposedEdge>
  {
    WithExact(GroupRows(cs), GroupTotal(cs, counting))
  }

  // ---------------------------------------------------------------------------
  // Facts about the entries and the merge

  lemma {:induction false} EntryOfStep(steps: seq<Step>, e: Entry)
    requires e in Entries(steps)
    ensures e.step < |steps| && e.childId in steps[e.step].members
    ensures e.mergedChildDuration == Duration(steps[e.step])
  {
    var n := |steps|;
    if e in Entries(steps[..n - 1]) {
      EntryOfStep(steps[..n - 1], e);
      assert steps[..n - 1][e.step] == steps[e.step];
    } else {
      var es := StepEntries(steps[n - 1], n - 1);
      var k :| 0 <= k < |es| && es[k] == e;
    }
  }

  lemma {:induction false} EntryForMember(steps: seq<Step>, i: nat, id: string)
    requires i < |steps| && id in steps[i].members
    ensures Entry(Duration(steps[i]), i, id) in Entries(steps)
  {
    var n := |steps|;
    if i < n - 1 {
      assert steps[..n - 1][i] == steps[i];
      EntryForMember(steps[..n - 1], i, id);
    } else {
      var k :| 0 <= k < |steps[i].members| && steps[i].members[k] == id;
      assert StepEntries(steps[i], i)[k] == Entry(Duration(steps[i]), i, id);
    }
  }

  lemma {:induction false} MatchesForMember(c: Edge, es: seq<Entry>, m: Merged)
    ensures m in MatchesFor(c, es) <==>
      exists e :: e in es && e.childId == c.childId && m == Merged(c, e.mergedChildDuration, e.step)
  {
    if |es| > 0 {
      MatchesForMember(c, es[1..], m);
      assert es[0] in es;
      if exists e :: e in es && e.childId == c.childId && m == Merged(c, e.mergedChildDuration, e.step) {
        var e :| e in es && e.childId == c.childId && m == Merged(c, e.mergedChildDuration, e.step);
        if e != es[0] {
          assert e in es[1..];
        }
      }
    }
  }

  lemma {:induction false} MergeOnChildMember(cs: seq<Edge>, es: seq<Entry>, m: Merged)
    ensures m in MergeOnChild(cs, es) <==> exists c :: c in cs && m in MatchesFor(c, es)
  {
    if |cs| > 0 {
      MergeOnChildMember(cs[1..], es, m);
      assert cs[0] in cs;
      if exists c :: c in cs && m in MatchesFor(c, es) {
        var c :| c in cs && m in MatchesFor(c, es);
        if c != cs[0] {
          assert c in cs[1..];
        }
      }
    }
  }

  /** Every output row of a group is one of its children, tagged with the index of a
      step that has it as a member and with that step's end minus start; its exact
      parent duration is its parent duration minus the group's total. */
  lemma RowOfGroup(cs: seq<Edge>, counting: Counting, r: DecomposedEdge)
    requires r in ProcessGroup(cs, counting)
    ensures r.edge in cs
    ensures r.step < |StepsOf(cs)| && r.edge.childId in StepsOf(cs)[r.step].members
    ensures r.mergedChildDuration == StepsOf(cs)[r.step].endTime - StepsOf(cs)[r.step].startTime
    ensures r.exactParentDuration == r.edge.parentDuration - GroupTotal(cs, counting)
  {
    var rows := GroupRows(cs);
    var es := Entries(StepsOf(cs));
    var i :| 0 <= i < |rows| && ProcessGroup(cs, counting)[i] == r;
    var m := rows[i];
    assert m in rows;
    MergeOnChildMember(cs, es, m);
    var c :| c in cs && m in MatchesFor(c, es);
    MatchesForMember(c, es, m);
    var e :| e in es && e.childId == c.childId && m == Merged(c, e.mergedChildDuration, e.step);
    EntryOfStep(StepsOf(cs), e);
  }

  /** Conversely, for start-ordered children every child gets a row carrying the
      step it joined during the pass. */
  lemma ChildHasRow(cs: seq<Edge>, counting: Counting, k: nat)
    requires SortedByStart(cs) && WellTimed(cs) && k < |cs|
    ensures var i := StepIndexOf(cs, k);
      i < |StepsOf(cs)| &&
      DecomposedEdge(cs[k], Duration(StepsOf(cs)[i]), i, cs[k].parentDuration - GroupTotal(cs, counting))
        in ProcessGroup(cs, counting)
  {
    var steps := StepsOf(cs);
    var i := StepIndexOf(cs, k);
    ChildInItsStep(cs, k);
    var e := Entry(Duration(steps[i]), i, cs[k].childId);
    EntryForMember(steps, i, cs[k].childId);
    var es := Entries(steps);
    var m := Merged(cs[k], e.mergedChildDuration, e.step);
    MatchesForMember(cs[k], es, m);
    assert cs[k] in cs;
    MergeOnChildMember(cs, es, m);
    var rows := GroupRows(cs);
    var j :| 0 <= j < |rows| && rows[j] == m;
    assert ProcessGroup(cs, counting)[j] == DecomposedEdge(cs[k], Duration(steps[i]), i, cs[k].parentDuration - GroupTotal(cs, counting));
  }

  // ---------------------------------------------------------------------------
  // Agreement of the two totals when no step has parallel members

  predicate SingleMembered(steps: seq<Step>)
  {
    forall s <- steps :: |s.members| == 1
  }

  lemma {:induction false} MemberIdsSingletons(steps: seq<Step>)
    requires SingleMembered(steps)
    ensures |MemberIds(steps)| == |steps|
    ensures forall i :: 0 <= i < |steps| ==> MemberIds(steps)[i] == steps[i].members[0]
  {
    var n := |steps|;
    if n > 0 {
      assert forall s <- steps[..n - 1] :: s in steps;
      MemberIdsSingletons(steps[..n - 1]);
      assert steps[n - 1] in steps;
      assert forall i :: 0 <= i < n - 1 ==> steps[..n - 1][i] == steps[i];
    }
  }

  lemma {:induction false} EntriesSingletons(steps: seq<Step>)
    requires SingleMembered(steps)
    ensures |Entries(steps)| == |steps|
    ensures forall i :: 0 <= i < |steps| ==> Entries(steps)[i] == Entry(Duration(steps[i]), i, steps[i].members[0])
  {
    var n := |steps|;
    if n > 0 {
      assert forall s <- steps[..n - 1] :: s in steps;
      EntriesSingletons(steps[..n - 1]);
      assert steps[n - 1] in steps;
      assert forall i :: 0 <= i < n - 1 ==> steps[..n - 1][i] == steps[i];
    }
  }

  /** With one matching entry per child, aligned by position, the merge keeps one row
      per child in order. */
  lemma {:induction false} MergeAligned(cs: seq<Edge>, es: seq<Entry>, i: nat)
    requires |es| == |cs| && i <= |cs|
    requires forall k :: 0 <= k < |cs| ==> es[k].childId == cs[k].childId
    requires DistinctChildIds(cs)
    ensures |MergeOnChild(cs[i..], es)| == |cs| - i
    ensures forall k :: i <= k < |cs| ==>
      MergeOnChild(cs[i..], es)[k - i] == Merged(cs[k], es[k].mergedChildDuration, es[k].step)
    decreases |cs| - i
  {
    if i < |cs| {
      MergeAligned(cs, es, i + 1);
      var tail := MergeOnChild(cs[i + 1..], es);
      assert cs[i..][1..] == cs[i + 1..];
      assert cs[i..][0] == cs[i];
      UniqueMatch(cs, es, i, 0);
      assert es[0..] == es;
      var whole := MergeOnChild(cs[i..], es);
      assert whole == [Merged(cs[i], es[i].mergedChildDuration, es[i].step)] + tail;
      forall k | i <= k < |cs|
        ensures whole[k - i] == Merged(cs[k], es[k].mergedChildDuration, es[k].step)
      {
        if k > i {
          assert whole[k - i] == tail[k - (i + 1)];
        }
      }
    }
  }

  lemma {:induction false} UniqueMatch(cs: seq<Edge>, es: seq<Entry>, i: nat, from: nat)
    requires |es| == |cs| && i < |cs| && from <= |es|
    requires forall k :: 0 <= k < |cs| ==> es[k].childId == cs[k].childId
    requires DistinctChildIds(cs)
    ensures MatchesFor(cs[i], es[from..]) ==
      if from <= i then [Merged(cs[i], es[i].mergedChildDuration, es[i].step)] else []
    decreases |es| - from
  {
    if from < |es| {
      UniqueMatch(cs, es, i, from + 1);
      assert es[from..][1..] == es[from + 1..];
      assert es[from..][0] == es[from];
      if from != i {
      }
    }
  }

  lemma {:induction false} SumAligned(rows: seq<Merged>, steps: seq<Step>)
    requires |rows| == |steps|
    requires forall k :: 0 <= k < |rows| ==> rows[k].mergedChildDuration == Duration(steps[k])
    ensures SumMerged(rows) == SumSteps(steps)
  {
    if |rows| > 0 {
      SumAligned(rows[1..], steps[1..]);
    }
  }

  /** Without parallel children, step `k` is child `k` alone. */
  lemma SequentialEntries(cs: seq<Edge>)
    requires |cs| > 0 && SortedByStart(cs) && WellTimed(cs)
    requires SingleMembered(StepsOf(cs))
    ensures |StepsOf(cs)| == |cs| && |Entries(StepsOf(cs))| == |cs|
    ensures forall k :: 0 <= k < |cs| ==>
      Entries(StepsOf(cs))[k] == Entry(Duration(StepsOf(cs)[k]), k, cs[k].childId)
  {
    var steps := StepsOf(cs);
    StepsPartition(cs);
    MemberIdsSingletons(steps);
    EntriesSingletons(steps);
    assert forall k :: 0 <= k < |cs| ==> MemberIds(steps)[k] == ChildIds(cs)[k];
  }

  lemma SequentialRows(cs: seq<Edge>)
    requires |cs| > 0 && SortedByStart(cs) && WellTimed(cs)
    requires DistinctChildIds(cs)
    requires SingleMembered(StepsOf(cs))
    ensures |GroupRows(cs)| == |cs| == |StepsOf(cs)|
    ensures forall k :: 0 <= k < |cs| ==>
      GroupRows(cs)[k] == Merged(cs[k], Duration(StepsOf(cs)[k]), k)
  {
    SequentialEntries(cs);
    var es := Entries(StepsOf(cs));
    MergeAligned(cs, es, 0);
    assert cs[0..] == cs;
  }

  /** When every step has a single member (no parallel children) and child ids are
      distinct, counting per row and counting per step give the same output. */
  lemma PerRowAgreesWhenSequential(cs: seq<Edge>)
    requires |cs| > 0 && SortedByStart(cs) && WellTimed(cs)
    requires DistinctChildIds(cs)
    requires SingleMembered(StepsOf(cs))
    ensures ProcessGroup(cs, PerRow) == ProcessGroup(cs, PerStep)
  {
    SequentialRows(cs);
    var rows := GroupRows(cs);
    forall a, b | 0 <= a < b < |rows| ensures rows[a] != rows[b] {
      assert rows[a].edge == cs[a] && rows[b].edge == cs[b];
    }
    DistinctOfNoDup(rows);
    SumAligned(rows, StepsOf(cs));
    assert GroupTotal(cs, PerRow) == GroupTotal(cs, PerStep);
  }

  /** Two overlapping children of one 100 µs parent: [10, 40] and [20, 50]. */
  const OverlapA := Edge("t", 0, 10, 40, "p", "a", "", "", "", "", "", "", 100, 30)
  const OverlapB := Edge("t", 0, 20, 50, "p", "b", "", "", "", "", "", "", 100, 30)

  lemma OverlapSteps()
    ensures StepsOf([OverlapA, OverlapB]) == [Step(10, 50, ["a", "b"])]
  {
    var cs := [OverlapA, OverlapB];
    assert cs[..1] == [OverlapA];
    assert [OverlapA][..0] == [];
    assert Scan([]) == Pass([], Sentinel);
    assert Scan([OverlapA]) == Advance(Scan([]), OverlapA);
    assert Scan([OverlapA]) == Pass([], Step(10, 40, ["a"]));
    assert Scan(cs) == Advance(Scan([OverlapA]), OverlapB);
    assert Scan(cs) == Pass([], Step(10, 50, ["a", "b"]));
  }

  lemma OverlapRows()
    ensures GroupRows([OverlapA, OverlapB]) == [Merged(OverlapA, 40, 0), Merged(OverlapB, 40, 0)]
  {
    OverlapSteps();
    var steps := [Step(10, 50, ["a", "b"])];
    var es := Entries(steps);
    assert steps[..0] == [];
    var se := StepEntries(steps[0], 0);
    assert se == [Entry(40, 0, "a"), Entry(40, 0, "b")];
    assert es == Entries(steps[..0]) + se;
    assert "a" != "b" by { assert "a"[0] != "b"[0]; }
    assert es[1..][1..] == [];
    assert MatchesFor(OverlapB, es[1..]) == [Merged(OverlapB, 40, 0)];
    assert MatchesFor(OverlapB, es) == MatchesFor(OverlapB, es[1..]);
    assert MatchesFor(OverlapA, es[1..]) == [];
    assert MatchesFor(OverlapA, es) == [Merged(OverlapA, 40, 0)];
    assert [OverlapA, OverlapB][1..] == [OverlapB] && [OverlapB][1..] == [];
    assert MergeOnChild([OverlapB], es) == MatchesFor(OverlapB, es) + MergeOnChild([], es);
  }

  /** The two children form one step of 40 µs. Counted per row it is subtracted
      twice, leaving 20 µs of exclusive time instead of 60 µs. */
  lemma ParallelChildrenCountedTwice()
    ensures GroupTotal([OverlapA, OverlapB], PerRow) == 80
    ensures GroupTotal([OverlapA, OverlapB], PerStep) == 40
    ensures forall r <- ProcessGroup([OverlapA, OverlapB], PerRow) :: r.exactParentDuration == 20
    ensures forall r <- ProcessGroup([OverlapA, OverlapB], PerStep) :: r.exactParentDuration == 60
  {
    var cs := [OverlapA, OverlapB];
    OverlapSteps();
    OverlapRows();
    var rows := GroupRows(cs);
    assert NoDup(rows);
    DistinctOfNoDup(rows);
    assert rows[1..] == [Merged(OverlapB, 40, 0)];
    assert SumMerged(rows[1..]) == 40 + SumMerged(rows[1..][1..]);
    assert rows[1..][1..] == [];
    assert SumMerged(rows) == 80;
    assert SumSteps(StepsOf(cs)) == 40;
    forall r <- ProcessGroup(cs, PerRow) ensures r.exactParentDuration == 20 {
      var i :| 0 <= i < |rows| && ProcessGroup(cs, PerRow)[i] == r;
    }
    forall r <- ProcessGroup(cs, PerStep) ensures r.exactParentDuration == 60 {
      var i :| 0 <= i < |rows| && ProcessGroup(cs, PerStep)[i] == r;
    }
  }

  // ---------------------------------------------------------------------------
  // The whole table

  /** Places `x` after every element that starts no later than it. */
  function InsertByStart(x: Edge, s: seq<Edge>): (r: seq<Edge>)
    ensures multiset(r) == multiset(s) + multiset{x}
  {
    if |s| == 0 then [x]
    else if s[0].startTime <= x.startTime then
      assert s == [s[0]] + s[1..];
      [s[0]] + InsertByStart(x, s[1..])
    else [x] + s
  }

  /** `data.sort_values("start_time")`, by insertion. */
  function SortByStart(s: seq<Edge>): (r: seq<Edge>)
    ensures multiset(r) == multiset(s)
  {
    if |s| == 0 then []
    else
      assert s == s[..|s| - 1] + [s[|s| - 1]];
      InsertByStart(s[|s| - 1], SortByStart(s[..|s| - 1]))
  }

  /** Every element of `s` starts no earlier than `lo`. */
  predicate StartsFrom(s: seq<Edge>, lo: int)
  {
    forall y <- s :: lo <= y.startTime
  }

  lemma {:induction false} ConsSorted(x: Edge, s: seq<Edge>)
    requires SortedByStart(s) && StartsFrom(s, x.startTime)
    ensures SortedByStart([x] + s)
  {
    var r := [x] + s;
    forall i, j | 0 <= i < j < |r| ensures r[i].startTime <= r[j].startTime {
      assert r[j] == s[j - 1];
      if i > 0 {
        assert r[i] == s[i - 1];
      } else {
        assert s[j - 1] in s;
      }
    }
  }

  lemma {:induction false} InsertKeepsOrder(x: Edge, s: seq<Edge>)
    requires SortedByStart(s)
    ensures SortedByStart(InsertByStart(x, s))
  {
    if |s| > 0 {
      if s[0].startTime <= x.startTime {
        var rest := InsertByStart(x, s[1..]);
        InsertKeepsOrder(x, s[1..]);
        forall y <- rest ensures s[0].startTime <= y.startTime {
          assert y in multiset(rest);
          if y != x {
            assert y in s[1..];
            var m :| 0 <= m < |s[1..]| && s[1..][m] == y;
            assert s[m + 1] == y;
          }
        }
        ConsSorted(s[0], rest);
      } else {
        forall y <- s ensures x.startTime <= y.startTime {
          var m :| 0 <= m < |s| && s[m] == y;
        }
        ConsSorted(x, s);
      }
    }
  }

  lemma {:induction false} SortOrders(s: seq<Edge>)
    ensures SortedByStart(SortByStart(s))
  {
    if |s| > 0 {
      SortOrders(s[..|s| - 1]);
      InsertKeepsOrder(s[|s| - 1], SortByStart(s[..|s| - 1]));
    }
  }

  function GroupKey(e: Edge): (string, string)
  {
    (e.traceId, e.parentId)
  }

  function GroupOf(sorted: seq<Edge>, key: (string, string)): seq<Edge>
  {
    Filter(sorted, (e: Edge) => GroupKey(e) == key)
  }

  function GroupKeys(sorted: seq<Edge>): seq<(string, string)>
  {
    Distinct(seq(|sorted|, i requires 0 <= i < |sorted| => GroupKey(sorted[i])))
  }

  /** The concatenated outputs of every group, before the positivity filter. Each
      row is a row of its own group's decomposition, and its edge an input edge. */
  function AllRows(sorted: seq<Edge>, counting: Counting): (r: seq<DecomposedEdge>)
    ensures forall d <- r :: d.edge in sorted && d in ProcessGroup(GroupOf(sorted, GroupKey(d.edge)), counting)
  {
    var f := (k: (string, string)) => ProcessGroup(GroupOf(sorted, k), counting);
    var r := FlatMap(GroupKeys(sorted), f);
    assert forall d <- r :: d.edge in sorted && d in ProcessGroup(GroupOf(sorted, GroupKey(d.edge)), counting) by {
      forall d <- r ensures d.edge in sorted && d in ProcessGroup(GroupOf(sorted, GroupKey(d.edge)), counting) {
        FlatMapMember(GroupKeys(sorted), f, d);
        var k :| k in GroupKeys(sorted) && d in f(k);
        RowOfGroup(GroupOf(sorted, k), counting, d);
      }
    }
    r
  }

  /** `exact_parent_duration(data)`: sort, process each `(trace_id, parent_id)` group,
      keep the rows whose exact parent duration is positive. An empty table has no
      groups, so the grouped result has no third index level and dropping
      `level_2` is a KeyError. */
  function ExactParentDuration(data: seq<Edge>, counting: Counting): (r: Result<seq<DecomposedEdge>>)
    ensures r.Err? <==> |data| == 0
    ensures r.Err? ==> r.error == KeyError
    ensures r.Ok? ==> forall d <- r.value :: d.exactParentDuration > 0
  {
    if |data| == 0 then Err(KeyError)
    else Ok(Filter(AllRows(SortByStart(data), counting), (d: DecomposedEdge) => d.exactParentDuration > 0))
  }

  lemma {:induction false} FilterKeepsOrder(s: seq<Edge>, keep: Edge -> bool)
    requires SortedByStart(s)
    ensures SortedByStart(Filter(s, keep))
  {
    if |s| > 0 {
      FilterKeepsOrder(s[1..], keep);
      var rest := Filter(s[1..], keep);
      if keep(s[0]) {
        forall y <- rest ensures s[0].startTime <= y.startTime {
          var m :| 0 <= m < |s[1..]| && s[1..][m] == y;
          assert s[m + 1] == y;
        }
        ConsSorted(s[0], rest);
      }
    }
  }

  /** Each group's children reach the pass in ascending start time. */
  lemma GroupsSorted(data: seq<Edge>, key: (string, string))
    ensures SortedByStart(GroupOf(SortByStart(data), key))
  {
    SortOrders(data);
    FilterKeepsOrder(SortByStart(data), (e: Edge) => GroupKey(e) == key);
  }

  lemma KeyOfMember(sorted: seq<Edge>, e: Edge)
    requires e in sorted
    ensures GroupKey(e) in GroupKeys(sorted)
  {
    var idx :| 0 <= idx < |sorted| && sorted[idx] == e;
    var ks := seq(|sorted|, i requires 0 <= i < |sorted| => GroupKey(sorted[i]));
    assert ks[idx] == GroupKey(e);
  }

  lemma GroupRowInAllRows(sorted: seq<Edge>, counting: Counting, key: (string, string), r: DecomposedEdge)
    requires r in ProcessGroup(GroupOf(sorted, key), counting)
    ensures r in AllRows(sorted, counting)
  {
    RowOfGroup(GroupOf(sorted, key), counting, r);
    KeyOfMember(sorted, r.edge);
    var f := (k: (string, string)) => ProcessGroup(GroupOf(sorted, k), counting);
    assert r in f(key);
    FlatMapMember(GroupKeys(sorted), f, r);
  }

  /** A group survives whole or not at all: when its edges share one parent duration,
      one of its rows is kept exactly when every one of them is. */
  lemma GroupSurvivesWhole(data: seq<Edge>, counting: Counting, key: (string, string), r1: DecomposedEdge, r2: DecomposedEdge)
    requires forall e1 <- data, e2 <- data :: GroupKey(e1) == key && GroupKey(e2) == key ==>
      e1.parentDuration == e2.parentDuration
    requires r1 in ProcessGroup(GroupOf(SortByStart(data), key), counting)
    requires r2 in ProcessGroup(GroupOf(SortByStart(data), key), counting)
    ensures ExactParentDuration(data, counting).Ok?
    ensures r1 in ExactParentDuration(data, counting).value <==> r2 in ExactParentDuration(data, counting).value
  {
    var sorted := SortByStart(data);
    var g := GroupOf(sorted, key);
    RowOfGroup(g, counting, r1);
    RowOfGroup(g, counting, r2);
    assert r1.edge in multiset(sorted) && r2.edge in multiset(sorted);
    assert |data| > 0;
    GroupRowInAllRows(sorted, counting, key, r1);
    GroupRowInAllRows(sorted, counting, key, r2);
  }

  /** An output row is a row of its own group's decomposition: the group of
      its trace and parent. */
  lemma OutputRowOfGroup(data: seq<Edge>, counting: Counting, d: DecomposedEdge)
    requires ExactParentDuration(data, counting).Ok? && d in ExactParentDuration(data, counting).value
    ensures d in ProcessGroup(GroupOf(SortByStart(data), GroupKey(d.edge)), counting)
    ensures d.edge in data
  {
    var sorted := SortByStart(data);
    var f := (k: (string, string)) => ProcessGroup(GroupOf(sorted, k), counting);
    FlatMapMember(GroupKeys(sorted), f, d);
    var k :| k in GroupKeys(sorted) && d in f(k);
    RowOfGroup(GroupOf(sorted, k), counting, d);
    assert d.edge in multiset(sorted);
  }
}
