/** Table-shaped helpers over sequences: the filters, flat maps, sums and
    de-duplications that the modelled pandas pipelines perform. */
module Seqs {

  /** `[x for x in s if keep(x)]`. */
  function Filter<T>(s: seq<T>, keep: T -> bool): (r: seq<T>)
    ensures |r| <= |s|
    ensures forall x <- r :: x in s && keep(x)
    ensures forall x <- s :: keep(x) ==> x in r
  {
    if |s| == 0 then []
    else (if keep(s[0]) then [s[0]] else []) + Filter(s[1..], keep)
  }

  lemma {:induction false} FilterAll<T>(s: seq<T>, keep: T -> bool)
    requires forall x :: x in s ==> keep(x)
    ensures Filter(s, keep) == s
  {
    if |s| > 0 {
      FilterAll(s[1..], keep);
      assert [s[0]] + s[1..] == s;
    }
  }

  lemma {:induction false} FilterNone<T>(s: seq<T>, keep: T -> bool)
    requires forall x :: x in s ==> !keep(x)
    ensures Filter(s, keep) == []
  {
    if |s| > 0 {
      FilterNone(s[1..], keep);
    }
  }

  /** `[y for x in s for y in f(x)]`. */
  function FlatMap<T, U>(s: seq<T>, f: T -> seq<U>): seq<U>
  {
    if |s| == 0 then [] else f(s[0]) + FlatMap(s[1..], f)
  }

  lemma {:induction false} FlatMapMember<T, U>(s: seq<T>, f: T -> seq<U>, y: U)
    ensures y in FlatMap(s, f) <==> exists x :: x in s && y in f(x)
  {
    if |s| > 0 {
      FlatMapMember(s[1..], f, y);
      if y in f(s[0]) {
        assert s[0] in s;
      }
      if exists x :: x in s && y in f(x) {
        var x :| x in s && y in f(x);
        if x != s[0] {
          assert x in s[1..];
        }
      }
    }
  }

  lemma {:induction false} FlatMapSingletons<T, U>(s: seq<T>, f: T -> seq<U>)
    requires forall x :: x in s ==> |f(x)| == 1
    ensures |FlatMap(s, f)| == |s|
    ensures forall i :: 0 <= i < |s| ==> FlatMap(s, f)[i] == f(s[i])[0]
  {
    if |s| > 0 {
      FlatMapSingletons(s[1..], f);
      assert s[0] in s;
      forall i | 1 <= i < |s| ensures FlatMap(s, f)[i] == f(s[i])[0] {
        assert FlatMap(s, f)[i] == FlatMap(s[1..], f)[i - 1];
      }
    }
  }

  function Sum(xs: seq<int>): int
  {
    if |xs| == 0 then 0 else xs[0] + Sum(xs[1..])
  }

  function SumReal(xs: seq<real>): real
  {
    if |xs| == 0 then 0.0 else xs[0] + SumReal(xs[1..])
  }

  lemma {:induction false} SumAppend(a: seq<int>, b: seq<int>)
    ensures Sum(a + b) == Sum(a) + Sum(b)
  {
    if |a| > 0 {
      SumAppend(a[1..], b);
      assert (a + b)[1..] == a[1..] + b;
    } else {
      assert a + b == b;
    }
  }

  /** Order-preserving removal of repeated values (pandas `drop_duplicates()`,
      `unique()`): the first occurrence of each value is kept. */
  function Distinct<T(==)>(s: seq<T>): (r: seq<T>)
    ensures forall x <- r :: x in s
    ensures forall x <- s :: x in r
    ensures NoDup(r)
    ensures |r| <= |s|
  {
    DistinctFrom(s, [])
  }

  function DistinctFrom<T(==)>(s: seq<T>, seen: seq<T>): (r: seq<T>)
    requires NoDup(seen)
    ensures forall x <- r :: x in seen || x in s
    ensures forall x <- seen :: x in r
    ensures forall x <- s :: x in r
    ensures NoDup(r)
    ensures |r| <= |seen| + |s|
    ensures |r| >= |seen| && r[..|seen|] == seen
  {
    if |s| == 0 then seen
    else if s[0] in seen then DistinctFrom(s[1..], seen)
    else DistinctFrom(s[1..], seen + [s[0]])
  }

  predicate NoDup<T(==)>(s: seq<T>)
  {
    forall i, j :: 0 <= i < j < |s| ==> s[i] != s[j]
  }

  lemma {:induction false} DistinctOfNoDup<T>(s: seq<T>)
    requires NoDup(s)
    ensures Distinct(s) == s
  {
    DistinctFromNoDup(s, []);
  }

  lemma {:induction false} DistinctFromNoDup<T>(s: seq<T>, seen: seq<T>)
    requires NoDup(seen) && NoDup(seen + s)
    ensures DistinctFrom(s, seen) == seen + s
  {
    if |s| > 0 {
      assert (seen + s)[|seen|] == s[0];
      assert forall i :: 0 <= i < |seen| ==> seen[i] == (seen + s)[i];
      assert s[0] !in seen;
      assert seen + s == (seen + [s[0]]) + s[1..];
      DistinctFromNoDup(s[1..], seen + [s[0]]);
    }
  }

  function Max(a: int, b: int): int
  {
    if a >= b then a else b
  }
}
