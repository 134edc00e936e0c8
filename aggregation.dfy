/** `decouple_parent_and_child` (utils/trace_processor.py): per-(microservice, pod)
    latency percentiles from the parent view (exclusive time) and the child view
    (inclusive time). */
module Aggregation {
  import opened Seqs
  import opened Spans
  import opened Decomposer

  /** One output row: `microservice, pod, latency`. */
  datatype LatencyRow = LatencyRow(microservice: string, pod: string, latency: real)

  predicate SortedReals(s: seq<real>)
  {
    forall i, j :: 0 <= i < j < |s| ==> s[i] <= s[j]
  }

  function InsertReal(x: real, s: seq<real>): (r: seq<real>)
    ensures multiset(r) == multiset(s) + multiset{x}
  {
    if |s| == 0 then [x]
    else if s[0] <= x then
      assert s == [s[0]] + s[1..];
      [s[0]] + InsertReal(x, s[1..])
    else [x] + s
  }

  lemma {:induction false} InsertRealSorted(x: real, s: seq<real>)
    requires SortedReals(s)
    ensures SortedReals(InsertReal(x, s))
  {
    if |s| > 0 && s[0] <= x {
      InsertRealSorted(x, s[1..]);
      var rest := InsertReal(x, s[1..]);
      var r := [s[0]] + rest;
      forall i, j | 0 <= i < j < |r| ensures r[i] <= r[j] {
        assert r[j] == rest[j - 1];
        if i > 0 {
          assert r[i] == rest[i - 1];
        } else {
          assert rest[j - 1] in multiset(rest);
          if rest[j - 1] != x {
            assert rest[j - 1] in s[1..];
            var m :| 0 <= m < |s[1..]| && s[1..][m] == rest[j - 1];
            assert s[m + 1] == rest[j - 1];
          }
        }
      }
    }
  }

  function SortReals(s: seq<real>): (r: seq<real>)
    ensures multiset(r) == multiset(s)
  {
    if |s| == 0 then []
    else
      assert s == [s[0]] + s[1..];
      InsertReal(s[0], SortReals(s[1..]))
  }

  lemma {:induction false} SortRealsSorted(s: seq<real>)
    ensures SortedReals(SortReals(s))
  {
    if |s| > 0 {
      SortRealsSorted(s[1..]);
      InsertRealSorted(s[0], SortReals(s[1..]));
    }
  }

  lemma ScaleWithin(q: real, n: nat)
    requires 0.0 <= q <= 1.0
    ensures 0.0 <= q * n as real <= n as real
  {
  }

  /** The lower order-statistic index for quantile `q` over `m + 1` values. */
  function Rank(q: real, m: nat): (r: nat)
    requires 0.0 <= q <= 1.0
    ensures r <= m
    ensures r as real <= q * m as real < r as real + 1.0
  {
    ScaleWithin(q, m);
    (q * m as real).Floor
  }

  lemma Interpolate(a: real, b: real, f: real)
    requires a <= b && 0.0 <= f <= 1.0
    ensures a <= a + (b - a) * f <= b
  {
    assert (b - a) * f <= (b - a) * 1.0;
  }

  /** Linear interpolation between the two order statistics of the sorted `s`
      around position `q * (|s| - 1)`. */
  function Interpolated(s: seq<real>, q: real): real
    requires |s| > 0 && 0.0 <= q <= 1.0
  {
    var lo := Rank(q, |s| - 1);
    if lo + 1 < |s| then s[lo] + (s[lo + 1] - s[lo]) * (q * (|s| - 1) as real - lo as real) else s[lo]
  }

  /** pandas' default quantile (`interpolation="linear"`). */
  function Quantile(xs: seq<real>, q: real): real
    requires |xs| > 0 && 0.0 <= q <= 1.0
  {
    var s := SortReals(xs);
    assert |s| == |multiset(s)| == |xs|;
    Interpolated(s, q)
  }

  /** Every value of `xs` lies in `[lo, hi]`. */
  predicate Within(xs: seq<real>, lo: real, hi: real)
  {
    forall x <- xs :: lo <= x <= hi
  }

  lemma InterpolatedWithin(s: seq<real>, q: real, lo: real, hi: real)
    requires |s| > 0 && 0.0 <= q <= 1.0 && Within(s, lo, hi) && SortedReals(s)
    ensures lo <= Interpolated(s, q) <= hi
  {
    var r := Rank(q, |s| - 1);
    assert s[r] in s;
    if r + 1 < |s| {
      assert s[r + 1] in s;
      assert s[r] <= s[r + 1];
      var f := q * (|s| - 1) as real - r as real;
      assert 0.0 <= f <= 1.0;
      Interpolate(s[r], s[r + 1], f);
      assert Interpolated(s, q) == s[r] + (s[r + 1] - s[r]) * f;
    }
  }

  /** A quantile lies between the smallest and the largest observation. */
  lemma QuantileWithin(xs: seq<real>, q: real, lo: real, hi: real)
    requires |xs| > 0 && 0.0 <= q <= 1.0 && Within(xs, lo, hi)
    ensures lo <= Quantile(xs, q) <= hi
  {
    var s := SortReals(xs);
    SortRealsSorted(xs);
    assert |s| == |multiset(s)| == |xs|;
    forall x <- s ensures lo <= x <= hi {
      assert x in multiset(s);
      assert x in multiset(xs);
      assert x in xs;
    }
    InterpolatedWithin(s, q, lo, hi);
  }

  /** With all observations equal (in particular with a single one), every quantile is that value. */
  lemma QuantileOfConstant(xs: seq<real>, q: real, v: real)
    requires |xs| > 0 && 0.0 <= q <= 1.0 && forall x <- xs :: x == v
    ensures Quantile(xs, q) == v
  {
    QuantileWithin(xs, q, v, v);
  }

  /** `q = 0` gives the minimum and `q = 1` the maximum. */
  lemma QuantileExtremes(xs: seq<real>)
    requires |xs| > 0
    ensures forall x <- xs :: Quantile(xs, 0.0) <= x <= Quantile(xs, 1.0)
  {
    var s := SortReals(xs);
    SortRealsSorted(xs);
    assert |s| == |multiset(s)| == |xs|;
    var n := |s|;
    assert Rank(0.0, n - 1) == 0;
    assert Rank(1.0, n - 1) == n - 1;
    if n > 1 {
      assert Quantile(xs, 0.0) == s[0] + (s[1] - s[0]) * (0.0 * (n - 1) as real - 0 as real);
    }
    assert Quantile(xs, 0.0) == s[0];
    assert Quantile(xs, 1.0) == s[n - 1];
    forall x <- xs ensures s[0] <= x <= s[n - 1] {
      assert x in multiset(s);
      var i :| 0 <= i < |s| && s[i] == x;
    }
  }

  lemma {:induction false} SumRealWithin(xs: seq<real>, lo: real, hi: real)
    requires Within(xs, lo, hi)
    ensures |xs| as real * lo <= SumReal(xs) <= |xs| as real * hi
  {
    if |xs| > 0 {
      var rest := xs[1..];
      assert xs[0] in xs;
      assert Within(rest, lo, hi) by {
        forall x <- rest ensures lo <= x <= hi {
          assert x in xs;
        }
      }
      SumRealWithin(rest, lo, hi);
      assert SumReal(xs) == xs[0] + SumReal(rest);
      assert |xs| as real == |rest| as real + 1.0;
      AddWithin(|rest| as real, lo, hi, xs[0], SumReal(rest));
    }
  }

  /** One more value within `[lo, hi]` keeps a sum of `m` such values within bounds. */
  lemma AddWithin(m: real, lo: real, hi: real, x: real, sum: real)
    requires lo <= x <= hi && m * lo <= sum <= m * hi
    ensures (m + 1.0) * lo <= x + sum <= (m + 1.0) * hi
  {
  }

  /** `mean()`. */
  function Mean(xs: seq<real>): real
    requires |xs| > 0
  {
    SumReal(xs) / |xs| as real
  }

  lemma MeanWithin(xs: seq<real>, lo: real, hi: real)
    requires |xs| > 0 && Within(xs, lo, hi)
    ensures lo <= Mean(xs) <= hi
  {
    SumRealWithin(xs, lo, hi);
    var n := |xs| as real;
    assert n * lo <= SumReal(xs) <= n * hi;
    assert lo == (n * lo) / n && hi == (n * hi) / n;
  }

  /** Which side of each edge a view takes. */
  datatype View = ParentView | ChildView

  function KeyOf(d: DecomposedEdge, v: View): (string, string)
  {
    match v
    case ParentView => (d.edge.parentMs, d.edge.parentPod)
    case ChildView => (d.edge.childMs, d.edge.childPod)
  }

  /** The parent view reads `exact_parent_duration`, the child view `child_duration`. */
  function LatencyOf(d: DecomposedEdge, v: View): real
  {
    match v
    case ParentView => d.exactParentDuration as real
    case ChildView => d.edge.childDuration as real
  }

  function RowsOfKey(data: seq<DecomposedEdge>, v: View, k: (string, string)): seq<DecomposedEdge>
  {
    Filter(data, (d: DecomposedEdge) => KeyOf(d, v) == k)
  }

  function RowsOfTrace(rows: seq<DecomposedEdge>, t: string): seq<DecomposedEdge>
  {
    Filter(rows, (d: DecomposedEdge) => d.edge.traceId == t)
  }

  function Latencies(rows: seq<DecomposedEdge>, v: View): (ls: seq<real>)
    ensures |ls| == |rows| && forall i :: 0 <= i < |rows| ==> ls[i] == LatencyOf(rows[i], v)
  {
    seq(|rows|, i requires 0 <= i < |rows| => LatencyOf(rows[i], v))
  }

  function TraceIds(rows: seq<DecomposedEdge>): seq<string>
  {
    Distinct(seq(|rows|, i requires 0 <= i < |rows| => rows[i].edge.traceId))
  }

  lemma TraceHasRows(rows: seq<DecomposedEdge>, t: string)
    requires t in TraceIds(rows)
    ensures |RowsOfTrace(rows, t)| > 0
  {
    var ts := seq(|rows|, i requires 0 <= i < |rows| => rows[i].edge.traceId);
    var i :| 0 <= i < |ts| && ts[i] == t;
    assert rows[i] in rows;
  }

  /** `groupby([ms, pod, trace_id]).mean()`, one mean per trace of the key's rows. */
  function TraceMeans(rows: seq<DecomposedEdge>, v: View): (ms: seq<real>)
    ensures |ms| == |TraceIds(rows)|
  {
    var ts := TraceIds(rows);
    seq(|ts|, i requires 0 <= i < |ts| =>
      TraceHasRows(rows, ts[i]);
      Mean(Latencies(RowsOfTrace(rows, ts[i]), v)))
  }

  function Keys(data: seq<DecomposedEdge>, v: View): seq<(string, string)>
  {
    Distinct(seq(|data|, i requires 0 <= i < |data| => KeyOf(data[i], v)))
  }

  lemma KeyHasRows(data: seq<DecomposedEdge>, v: View, k: (string, string))
    requires k in Keys(data, v)
    ensures |RowsOfKey(data, v, k)| > 0 && |TraceMeans(RowsOfKey(data, v, k), v)| > 0
  {
    var ks := seq(|data|, i requires 0 <= i < |data| => KeyOf(data[i], v));
    var i :| 0 <= i < |ks| && ks[i] == k;
    assert data[i] in data;
    var rows := RowsOfKey(data, v, k);
    var j :| 0 <= j < |rows| && rows[j] == data[i];
    var ts := seq(|rows|, i requires 0 <= i < |rows| => rows[i].edge.traceId);
    assert ts[j] in ts;
  }

  /** One view: per-trace means, then the `q` quantile per `(microservice, pod)`. */
  function Perspective(data: seq<DecomposedEdge>, v: View, q: real): (r: seq<LatencyRow>)
    requires 0.0 <= q <= 1.0
    ensures |r| == |Keys(data, v)|
  {
    var ks := Keys(data, v);
    seq(|ks|, i requires 0 <= i < |ks| =>
      KeyHasRows(data, v, ks[i]);
      LatencyRow(ks[i].0, ks[i].1, Quantile(TraceMeans(RowsOfKey(data, v, ks[i]), v), q)))
  }

  function RowKey(r: LatencyRow): (string, string)
  {
    (r.microservice, r.pod)
  }

  /** `drop_duplicates(subset=["microservice", "pod"], keep="first")`. */
  function KeepFirst(rows: seq<LatencyRow>): (r: seq<LatencyRow>)
    ensures forall x <- r :: x in rows
    decreases |rows|
  {
    if |rows| == 0 then []
    else [rows[0]] + KeepFirst(Filter(rows[1..], (x: LatencyRow) => RowKey(x) != RowKey(rows[0])))
  }

  /** `decouple_parent_and_child(data, percentile)`: the rows of the parent and the
      child view, one per `(microservice, pod)`. */
  function Decouple(data: seq<DecomposedEdge>, q: real): (r: seq<LatencyRow>)
    requires 0.0 <= q <= 1.0
    ensures forall y <- r :: y in Perspective(data, ParentView, q) + Perspective(data, ChildView, q)
    ensures forall x <- Perspective(data, ParentView, q) + Perspective(data, ChildView, q) ::
      exists y <- r :: RowKey(y) == RowKey(x)
    ensures forall i, j :: 0 <= i < j < |r| ==> RowKey(r[i]) != RowKey(r[j])
  {
    var both := Perspective(data, ParentView, q) + Perspective(data, ChildView, q);
    KeepFirstCovers(both);
    KeepFirstDistinct(both);
    KeepFirst(both)
  }

  // ---------------------------------------------------------------------------

  function FirstWithKey(rows: seq<LatencyRow>, k: (string, string)): LatencyRow
    requires exists x <- rows :: RowKey(x) == k
  {
    if RowKey(rows[0]) == k then rows[0] else FirstWithKey(rows[1..], k)
  }

  /** The key of a row survives. */
  lemma {:induction false} KeepFirstKeeps(rows: seq<LatencyRow>, x: LatencyRow)
    requires x in rows
    ensures exists y <- KeepFirst(rows) :: RowKey(y) == RowKey(x)
    decreases |rows|
  {
    var k0 := RowKey(rows[0]);
    var rest := Filter(rows[1..], (z: LatencyRow) => RowKey(z) != k0);
    var r := KeepFirst(rows);
    assert r == [rows[0]] + KeepFirst(rest);
    if RowKey(x) == k0 {
      assert r[0] in r;
    } else {
      assert x in rows[1..];
      assert x in rest;
      KeepFirstKeeps(rest, x);
      var y :| y in KeepFirst(rest) && RowKey(y) == RowKey(x);
      assert y in r;
    }
  }

  /** Every key of the input survives. */
  lemma KeepFirstCovers(rows: seq<LatencyRow>)
    ensures forall x <- rows :: exists y <- KeepFirst(rows) :: RowKey(y) == RowKey(x)
  {
    forall x <- rows ensures exists y <- KeepFirst(rows) :: RowKey(y) == RowKey(x) {
      KeepFirstKeeps(rows, x);
    }
  }

  /** No key survives twice. */
  lemma {:induction false} KeepFirstDistinct(rows: seq<LatencyRow>)
    ensures forall i, j :: 0 <= i < j < |KeepFirst(rows)| ==> RowKey(KeepFirst(rows)[i]) != RowKey(KeepFirst(rows)[j])
    decreases |rows|
  {
    if |rows| > 0 {
      var k0 := RowKey(rows[0]);
      var rest := Filter(rows[1..], (x: LatencyRow) => RowKey(x) != k0);
      KeepFirstDistinct(rest);
      var r := KeepFirst(rows);
      assert r == [rows[0]] + KeepFirst(rest);
      forall i, j | 0 <= i < j < |r| ensures RowKey(r[i]) != RowKey(r[j]) {
        assert r[j] == KeepFirst(rest)[j - 1];
        if i > 0 {
          assert r[i] == KeepFirst(rest)[i - 1];
        } else {
          assert r[j] in rest;
        }
      }
    }
  }

  /** The row kept for a key is its first occurrence. */
  lemma {:induction false} KeepFirstIsFirst(rows: seq<LatencyRow>)
    ensures forall y <- KeepFirst(rows) :: y == FirstWithKey(rows, RowKey(y))
    decreases |rows|
  {
    if |rows| > 0 {
      var k0 := RowKey(rows[0]);
      var rest := Filter(rows[1..], (x: LatencyRow) => RowKey(x) != k0);
      KeepFirstIsFirst(rest);
      var r := KeepFirst(rows);
      assert r == [rows[0]] + KeepFirst(rest);
      forall y <- r ensures y == FirstWithKey(rows, RowKey(y)) {
        if y != rows[0] {
          assert y in KeepFirst(rest);
          assert y == FirstWithKey(rest, RowKey(y));
          FirstWithKeyFiltered(rows[1..], k0, RowKey(y));
        }
      }
    }
  }

  /** `drop_duplicates(keep="first")`: every key survives once, as its first
      occurrence. */
  lemma KeepFirstKeys(rows: seq<LatencyRow>)
    ensures forall x <- rows :: exists y <- KeepFirst(rows) :: RowKey(y) == RowKey(x)
    ensures forall i, j :: 0 <= i < j < |KeepFirst(rows)| ==> RowKey(KeepFirst(rows)[i]) != RowKey(KeepFirst(rows)[j])
    ensures forall y <- KeepFirst(rows) :: y == FirstWithKey(rows, RowKey(y))
  {
    KeepFirstCovers(rows);
    KeepFirstDistinct(rows);
    KeepFirstIsFirst(rows);
  }

  lemma {:induction false} FirstWithKeyFiltered(rows: seq<LatencyRow>, drop: (string, string), k: (string, string))
    requires k != drop
    requires exists x <- Filter(rows, (x: LatencyRow) => RowKey(x) != drop) :: RowKey(x) == k
    ensures exists x <- rows :: RowKey(x) == k
    ensures FirstWithKey(Filter(rows, (x: LatencyRow) => RowKey(x) != drop), k) == FirstWithKey(rows, k)
  {
    var f := Filter(rows, (x: LatencyRow) => RowKey(x) != drop);
    var x :| x in f && RowKey(x) == k;
    assert x in rows;
    if |rows| > 0 && RowKey(rows[0]) != k {
      var rest := Filter(rows[1..], (x: LatencyRow) => RowKey(x) != drop);
      if RowKey(rows[0]) != drop {
        assert f == [rows[0]] + rest;
      } else {
        assert f == rest;
      }
      assert x in rest;
      FirstWithKeyFiltered(rows[1..], drop, k);
    }
  }

  lemma {:induction false} FirstWithKeyAppend(a: seq<LatencyRow>, b: seq<LatencyRow>, k: (string, string))
    requires exists x <- a :: RowKey(x) == k
    ensures exists x <- a + b :: RowKey(x) == k
    ensures FirstWithKey(a + b, k) == FirstWithKey(a, k)
  {
    var x :| x in a && RowKey(x) == k;
    assert x in a + b;
    if RowKey(a[0]) != k {
      assert x in a[1..];
      assert (a + b)[1..] == a[1..] + b;
      FirstWithKeyAppend(a[1..], b, k);
    }
  }

  lemma {:induction false} FirstWithKeyIn(rows: seq<LatencyRow>, k: (string, string))
    requires exists x <- rows :: RowKey(x) == k
    ensures FirstWithKey(rows, k) in rows && RowKey(FirstWithKey(rows, k)) == k
  {
    if RowKey(rows[0]) != k {
      var x :| x in rows && RowKey(x) == k;
      assert x in rows[1..];
      FirstWithKeyIn(rows[1..], k);
    }
  }

  /** The output has one row per `(microservice, pod)` covered by either view. When both
      views cover a key, the row is the parent view's; otherwise it is the child view's. */
  lemma DecoupleKeys(data: seq<DecomposedEdge>, q: real)
    requires 0.0 <= q <= 1.0
    ensures var out := Decouple(data, q);
      forall i, j :: 0 <= i < j < |out| ==> RowKey(out[i]) != RowKey(out[j])
    ensures var out := Decouple(data, q);
      forall x <- Perspective(data, ParentView, q) + Perspective(data, ChildView, q) ::
        exists y <- out :: RowKey(y) == RowKey(x)
    ensures forall y <- Decouple(data, q) ::
      (exists x <- Perspective(data, ParentView, q) :: RowKey(x) == RowKey(y)) ==>
        y in Perspective(data, ParentView, q)
    ensures forall y <- Decouple(data, q) ::
      y in Perspective(data, ParentView, q) || y in Perspective(data, ChildView, q)
  {
    var p := Perspective(data, ParentView, q);
    var c := Perspective(data, ChildView, q);
    KeepFirstKeys(p + c);
    forall y <- Decouple(data, q) | exists x <- p :: RowKey(x) == RowKey(y)
      ensures y in p
    {
      FirstWithKeyAppend(p, c, RowKey(y));
      FirstWithKeyIn(p, RowKey(y));
    }
  }

  /** Bounds carry through: if every latency a view reads lies in `[lo, hi]`, so does
      every latency it reports. */
  lemma PerspectiveWithin(data: seq<DecomposedEdge>, v: View, q: real, lo: real, hi: real)
    requires 0.0 <= q <= 1.0
    requires forall d <- data :: lo <= LatencyOf(d, v) <= hi
    ensures forall r <- Perspective(data, v, q) :: lo <= r.latency <= hi
  {
    var ks := Keys(data, v);
    forall i | 0 <= i < |ks| ensures lo <= Perspective(data, v, q)[i].latency <= hi {
      KeyHasRows(data, v, ks[i]);
      KeyMeansWithin(data, v, ks[i], lo, hi);
      QuantileWithin(TraceMeans(RowsOfKey(data, v, ks[i]), v), q, lo, hi);
    }
  }

  /** The per-trace means of one key lie within the bounds of the latencies read. */
  lemma KeyMeansWithin(data: seq<DecomposedEdge>, v: View, k: (string, string), lo: real, hi: real)
    requires forall d <- data :: lo <= LatencyOf(d, v) <= hi
    ensures Within(TraceMeans(RowsOfKey(data, v, k), v), lo, hi)
  {
    var rows := RowsOfKey(data, v, k);
    var ms := TraceMeans(rows, v);
    var ts := TraceIds(rows);
    forall j | 0 <= j < |ms| ensures lo <= ms[j] <= hi {
      TraceHasRows(rows, ts[j]);
      var tr := RowsOfTrace(rows, ts[j]);
      assert forall d <- tr :: d in data;
      MeanWithin(Latencies(tr, v), lo, hi);
    }
  }

  /** A `(microservice, pod)` observed once reports that observation's latency. */
  lemma SingleObservation(data: seq<DecomposedEdge>, v: View, q: real, i: nat)
    requires 0.0 <= q <= 1.0 && i < |Keys(data, v)|
    requires |RowsOfKey(data, v, Keys(data, v)[i])| == 1
    ensures Perspective(data, v, q)[i].latency == LatencyOf(RowsOfKey(data, v, Keys(data, v)[i])[0], v)
  {
    var ks := Keys(data, v);
    KeyHasRows(data, v, ks[i]);
    var rows := RowsOfKey(data, v, ks[i]);
    var d := rows[0];
    var ms := TraceMeans(rows, v);
    var ts := TraceIds(rows);
    forall j | 0 <= j < |ms| ensures ms[j] == LatencyOf(d, v) {
      TraceHasRows(rows, ts[j]);
      var tr := RowsOfTrace(rows, ts[j]);
      assert forall e <- tr :: e == d;
      MeanWithin(Latencies(tr, v), LatencyOf(d, v), LatencyOf(d, v));
    }
    QuantileOfConstant(ms, q, LatencyOf(d, v));
  }
}
