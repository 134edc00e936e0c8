/** The linear pass of `process_children_of_same_parent`
    (utils/trace_processor.py) that merges a parent's children, taken in
    ascending start time, into non-overlapping "steps". */
module Steps {
  import opened Spans
  import opened Seqs

  /** One step: `{start_time, end_time, members}`, members being child span ids. */
  datatype Step = Step(startTime: int, endTime: int, members: seq<string>)

  /** The loop state: the steps appended so far and the open `step`. */
  datatype Pass = Pass(closed: seq<Step>, current: Step)

  /** The open step before the first child: `{-1, -1, []}`. */
  const Sentinel := Step(-1, -1, [])

  /** One loop iteration: a child starting no later than the open step's end
      (inclusive) joins it and extends its end to the maximum; any other child
      closes the open step (unless it is still the sentinel) and opens a new one. */
  function Advance(p: Pass, c: Edge): Pass
  {
    if c.startTime <= p.current.endTime then
      Pass(p.closed, Step(p.current.startTime, Max(c.endTime, p.current.endTime), p.current.members + [c.childId]))
    else
      Pass(if p.current.startTime != -1 then p.closed + [p.current] else p.closed,
           Step(c.startTime, c.endTime, [c.childId]))
  }

  /** The loop state after the children `cs`, in order. */
  function Scan(cs: seq<Edge>): Pass
    decreases |cs|
  {
    if |cs| == 0 then Pass([], Sentinel)
    else Advance(Scan(cs[..|cs| - 1]), cs[|cs| - 1])
  }

  /** The `steps` list after the final `steps.append(step)`. */
  function StepsOf(cs: seq<Edge>): (steps: seq<Step>)
    ensures |steps| >= 1
  {
    Scan(cs).closed + [Scan(cs).current]
  }

  /** The loop itself, mutating the open step and appending to `steps`. */
  method BuildSteps(children: seq<Edge>) returns (steps: seq<Step>)
    ensures steps == StepsOf(children)
  {
    steps := [];
    var step := Sentinel;
    for i := 0 to |children|
      invariant Pass(steps, step) == Scan(children[..i])
    {
      var span := children[i];
      assert children[..i + 1][..i] == children[..i];
      if span.startTime <= step.endTime {
        step := Step(step.startTime, Max(span.endTime, step.endTime), step.members + [span.childId]);
      } else {
        if step.startTime != -1 {
          steps := steps + [step];
        }
        step := Step(span.startTime, span.endTime, [span.childId]);
      }
    }
    assert children[..|children|] == children;
    steps := steps + [step];
  }

  function ChildIds(cs: seq<Edge>): (ids: seq<string>)
    ensures |ids| == |cs| && forall i :: 0 <= i < |cs| ==> ids[i] == cs[i].childId
  {
    if |cs| == 0 then [] else ChildIds(cs[..|cs| - 1]) + [cs[|cs| - 1].childId]
  }

  /** Child span ids are pairwise distinct. */
  predicate DistinctChildIds(cs: seq<Edge>)
  {
    forall i, j :: 0 <= i < j < |cs| ==> cs[i].childId != cs[j].childId
  }

  /** The members of all steps, step after step. */
  function MemberIds(steps: seq<Step>): seq<string>
  {
    if |steps| == 0 then [] else MemberIds(steps[..|steps| - 1]) + steps[|steps| - 1].members
  }

  predicate SortedByStart(cs: seq<Edge>)
  {
    forall i, j :: 0 <= i < j < |cs| ==> cs[i].startTime <= cs[j].startTime
  }

  /** Non-negative start times (the `-1` sentinel relies on it) and end >= start. */
  predicate WellTimed(cs: seq<Edge>)
  {
    forall c <- cs :: 0 <= c.startTime <= c.endTime
  }

  predicate Proper(s: Step)
  {
    0 <= s.startTime <= s.endTime && s.members != []
  }

  predicate Chained(steps: seq<Step>)
  {
    forall i :: 0 <= i < |steps| - 1 ==> steps[i].endTime < steps[i + 1].startTime
  }

  predicate ScanInv(cs: seq<Edge>, p: Pass)
    requires |cs| > 0
  {
    && (forall s <- p.closed + [p.current] :: Proper(s))
    && Chained(p.closed + [p.current])
    && MemberIds(p.closed + [p.current]) == ChildIds(cs)
    && p.current.startTime <= cs[|cs| - 1].startTime
  }

  lemma MemberIdsSnoc(steps: seq<Step>, s: Step)
    ensures MemberIds(steps + [s]) == MemberIds(steps) + s.members
  {
    assert (steps + [s])[..|steps|] == steps;
  }

  lemma ChildIdsSnoc(cs: seq<Edge>, c: Edge)
    ensures ChildIds(cs + [c]) == ChildIds(cs) + [c.childId]
  {
    assert (cs + [c])[..|cs|] == cs;
  }

  /** A child that joins the open step keeps the invariant. */
  lemma InvJoin(pre: seq<Edge>, p: Pass, c: Edge)
    requires |pre| > 0 && ScanInv(pre, p)
    requires pre[|pre| - 1].startTime <= c.startTime <= p.current.endTime && c.startTime <= c.endTime
    ensures ScanInv(pre + [c], Advance(p, c))
  {
    var cur := Step(p.current.startTime, Max(c.endTime, p.current.endTime), p.current.members + [c.childId]);
    assert Advance(p, c) == Pass(p.closed, cur);
    MemberIdsSnoc(p.closed, p.current);
    MemberIdsSnoc(p.closed, cur);
    ChildIdsSnoc(pre, c);
    var steps := p.closed + [p.current];
    var steps' := p.closed + [cur];
    assert p.current in steps;
    forall i | 0 <= i < |steps'| - 1 ensures steps'[i].endTime < steps'[i + 1].startTime {
      assert steps'[i] == steps[i];
    }
    forall s <- steps' ensures Proper(s) {
      if s != cur {
        assert s in steps;
      }
    }
  }

  /** A child that starts after the open step's end closes it and opens a new step. */
  lemma InvOpen(pre: seq<Edge>, p: Pass, c: Edge)
    requires |pre| > 0 && ScanInv(pre, p)
    requires pre[|pre| - 1].startTime <= c.startTime && p.current.endTime < c.startTime <= c.endTime
    ensures ScanInv(pre + [c], Advance(p, c))
  {
    var steps := p.closed + [p.current];
    assert p.current in steps;
    var cur := Step(c.startTime, c.endTime, [c.childId]);
    assert Advance(p, c) == Pass(steps, cur);
    MemberIdsSnoc(steps, cur);
    ChildIdsSnoc(pre, c);
    var steps' := steps + [cur];
    forall i | 0 <= i < |steps'| - 1 ensures steps'[i].endTime < steps'[i + 1].startTime {
      if i < |steps| - 1 {
        assert steps'[i] == steps[i] && steps'[i + 1] == steps[i + 1];
      }
    }
    forall s <- steps' ensures Proper(s) {
      if s != cur {
        assert s in steps;
      }
    }
  }

  lemma PrefixSorted(cs: seq<Edge>, m: nat)
    requires m <= |cs| && SortedByStart(cs)
    ensures SortedByStart(cs[..m])
  {
  }

  lemma PrefixWellTimed(cs: seq<Edge>, m: nat)
    requires m <= |cs| && WellTimed(cs)
    ensures WellTimed(cs[..m])
  {
    forall x <- cs[..m] ensures 0 <= x.startTime <= x.endTime {
      assert x in cs;
    }
  }

  /** The open step starts no later than the last child read. */
  lemma {:induction false} ScanCurrentStart(cs: seq<Edge>)
    requires |cs| > 0 && SortedByStart(cs) && WellTimed(cs)
    ensures Scan(cs).current.startTime <= cs[|cs| - 1].startTime
  {
    var n := |cs|;
    assert cs[n - 1] in cs;
    if n > 1 {
      PrefixSorted(cs, n - 1);
      PrefixWellTimed(cs, n - 1);
      ScanCurrentStart(cs[..n - 1]);
      assert cs[..n - 1][n - 2] == cs[n - 2];
    }
  }

  /** The invariant after the first child. */
  lemma ScanFirst(c: Edge)
    requires 0 <= c.startTime <= c.endTime
    ensures ScanInv([c], Scan([c]))
  {
    assert [c][..0] == [];
    MemberIdsSnoc([], Step(c.startTime, c.endTime, [c.childId]));
    ChildIdsSnoc([], c);
  }

  lemma {:induction false} ScanKeepsInv(cs: seq<Edge>)
    requires |cs| > 0 && SortedByStart(cs) && WellTimed(cs)
    ensures ScanInv(cs, Scan(cs))
  {
    var n := |cs|;
    var c := cs[n - 1];
    assert c in cs;
    if n == 1 {
      assert cs == [c];
      ScanFirst(c);
    } else {
      var pre := cs[..n - 1];
      assert cs == pre + [c];
      PrefixSorted(cs, n - 1);
      PrefixWellTimed(cs, n - 1);
      ScanKeepsInv(pre);
      var p := Scan(pre);
      assert pre[n - 2].startTime <= c.startTime;
      if c.startTime <= p.current.endTime {
        InvJoin(pre, p, c);
      } else {
        InvOpen(pre, p, c);
      }
    }
  }

  lemma {:induction false} ChainedOrdered(steps: seq<Step>, i: nat, j: nat)
    requires Chained(steps) && forall s <- steps :: Proper(s)
    requires i < j < |steps|
    ensures steps[i].endTime < steps[j].startTime
    decreases j - i
  {
    if j > i + 1 {
      ChainedOrdered(steps, i, j - 1);
      assert steps[j - 1] in steps;
    }
  }

  /** For children sorted by start time, the steps are proper (non-empty, start <= end),
      ordered and pairwise disjoint, and their members list every child once, in order. */
  lemma StepsPartition(cs: seq<Edge>)
    requires |cs| > 0 && SortedByStart(cs) && WellTimed(cs)
    ensures forall s <- StepsOf(cs) :: Proper(s)
    ensures forall i, j :: 0 <= i < j < |StepsOf(cs)| ==> StepsOf(cs)[i].endTime < StepsOf(cs)[j].startTime
    ensures MemberIds(StepsOf(cs)) == ChildIds(cs)
  {
    ScanKeepsInv(cs);
    forall i, j | 0 <= i < j < |StepsOf(cs)| ensures StepsOf(cs)[i].endTime < StepsOf(cs)[j].startTime {
      ChainedOrdered(StepsOf(cs), i, j);
    }
  }

  lemma {:induction false} ScanStartsAtZero(cs: seq<Edge>)
    requires |cs| > 0 && WellTimed(cs)
    ensures Scan(cs).current.startTime >= 0
    ensures cs[|cs| - 1].endTime <= Scan(cs).current.endTime
    ensures cs[|cs| - 1].childId in Scan(cs).current.members
  {
    var c := cs[|cs| - 1];
    assert c in cs;
    if |cs| > 1 {
      assert forall x <- cs[..|cs| - 1] :: x in cs;
      ScanStartsAtZero(cs[..|cs| - 1]);
    }
  }

  /** `q` is a later loop state than `p`: `p`'s closed steps are kept and `p`'s open
      step sits, same start and possibly extended, at the next position of `q`'s steps. */
  predicate Extends(p: Pass, q: Pass)
  {
    var steps := q.closed + [q.current];
    && |p.closed| < |steps|
    && p.closed <= q.closed
    && steps[|p.closed|].startTime == p.current.startTime
    && steps[|p.closed|].endTime >= p.current.endTime
    && p.current.members <= steps[|p.closed|].members
  }

  lemma {:induction false} ScanExtends(cs: seq<Edge>, m: nat)
    requires 1 <= m <= |cs| && WellTimed(cs)
    ensures Extends(Scan(cs[..m]), Scan(cs))
    decreases |cs|
  {
    if m == |cs| {
      assert cs[..m] == cs;
    } else {
      var pre := cs[..|cs| - 1];
      assert pre[..m] == cs[..m];
      assert forall x <- pre :: x in cs;
      ScanExtends(pre, m);
      ScanStartsAtZero(pre);
      var p := Scan(cs[..m]);
      var q := Scan(pre);
      var c := cs[|cs| - 1];
      var k := |p.closed|;
      var steps := q.closed + [q.current];
      var r := Advance(q, c);
      var steps' := r.closed + [r.current];
      if c.startTime <= q.current.endTime {
        if k == |q.closed| {
          assert steps'[k] == r.current;
          assert q.current.members <= r.current.members;
        } else {
          assert steps'[k] == steps[k];
        }
      } else {
        assert steps' == steps + [r.current];
        assert steps'[k] == steps[k];
      }
    }
  }

  /** The index of the step child `k` joined: the number of steps closed when it was read. */
  function StepIndexOf(cs: seq<Edge>, k: nat): nat
    requires k < |cs|
  {
    |Scan(cs[..k + 1]).closed|
  }

  /** Every child lies in its step: it is a member, and the step spans its interval. */
  lemma ChildInItsStep(cs: seq<Edge>, k: nat)
    requires SortedByStart(cs) && WellTimed(cs) && k < |cs|
    ensures StepIndexOf(cs, k) < |StepsOf(cs)|
    ensures cs[k].childId in StepsOf(cs)[StepIndexOf(cs, k)].members
    ensures StepsOf(cs)[StepIndexOf(cs, k)].startTime <= cs[k].startTime
    ensures cs[k].endTime <= StepsOf(cs)[StepIndexOf(cs, k)].endTime
  {
    var pre := cs[..k + 1];
    PrefixSorted(cs, k + 1);
    PrefixWellTimed(cs, k + 1);
    assert pre[k] == cs[k];
    ScanCurrentStart(pre);
    ScanStartsAtZero(pre);
    ScanExtends(cs, k + 1);
    var p := Scan(pre);
    var i := StepIndexOf(cs, k);
    assert cs[k].childId in p.current.members;
    assert p.current.members <= StepsOf(cs)[i].members;
  }
}
