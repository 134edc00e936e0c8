/** Hardware usage records (AEFM/data_collector/models.py): a dictionary from
    microservice to a dictionary from pod to usage, both in insertion order. */
module Usage {
  import opened Wrappers
  import opened OrderedMaps

  type Records = OMap<string, OMap<string, real>>

  /** One row of the `microservice, pod, usage` table. */
  datatype UsageRow = UsageRow(microservice: string, pod: string, usage: real)

  /** `TestCaseData`: the five fields of one test case's collection request. Times
      are seconds since the epoch. */
  datatype TestCaseData = TestCaseData(
    startTime: real,
    endTime: real,
    name: string,
    additionalColumns: Option<OMap<string, string>>,
    operation: Option<string>)

  /** `TestCaseData(start, end, name)` with the optional arguments left at None. */
  function NewTestCaseData(startTime: real, endTime: real, name: string): (d: TestCaseData)
    ensures d.startTime == startTime && d.endTime == endTime && d.name == name
    ensures d.additionalColumns.None? && d.operation.None?
  {
    TestCaseData(startTime, endTime, name, None, None)
  }

  /** The inner dictionary of `ms`, or `{}` when there is none. */
  function Inner(recs: Records, ms: string): OMap<string, real>
  {
    match Get(recs, ms)
    case Some(m) => m
    case None => []
  }

  /** The records after `set(ms, pod, usage)`. */
  function SetUsage(recs: Records, ms: string, pod: string, usage: real): Records
  {
    Put(recs, ms, Put(Inner(recs, ms), pod, usage))
  }

  /** `get(ms, pod)`: None when the microservice or the pod is absent. */
  function Lookup(recs: Records, ms: string, pod: string): Option<real>
  {
    match Get(recs, ms)
    case None => None
    case Some(inner) => Get(inner, pod)
  }

  /** `get` finds a value exactly when both keys are present. */
  lemma LookupSome(recs: Records, ms: string, pod: string)
    ensures Lookup(recs, ms, pod).Some? <==> ms in Keys(recs) && pod in Keys(Inner(recs, ms))
  {
    GetSome(recs, ms);
    GetSome(Inner(recs, ms), pod);
  }

  /** Keys are distinct at both levels, and `set` never leaves an inner dict empty. */
  predicate WellFormed(recs: Records)
  {
    NoDupKeys(recs) && forall i :: 0 <= i < |recs| ==> NoDupKeys(recs[i].1) && |recs[i].1| > 0
  }

  lemma {:induction false} GetInRecords(recs: Records, ms: string)
    requires Get(recs, ms).Some?
    ensures exists i :: 0 <= i < |recs| && recs[i] == (ms, Get(recs, ms).value)
  {
    if recs[0].0 != ms {
      GetInRecords(recs[1..], ms);
      var i :| 0 <= i < |recs[1..]| && recs[1..][i] == (ms, Get(recs[1..], ms).value);
      assert recs[i + 1] == recs[1..][i];
    }
  }

  lemma {:induction false} PutEntries<K, V>(m: OMap<K, V>, k: K, v: V)
    ensures forall e <- Put(m, k, v) :: e == (k, v) || e in m
    ensures (k, v) in Put(m, k, v)
    ensures |Put(m, k, v)| > 0
  {
    if |m| > 0 && m[0].0 != k {
      PutEntries(m[1..], k, v);
    }
  }

  lemma {:induction false} InnerWellFormed(recs: Records, ms: string)
    requires WellFormed(recs)
    ensures NoDupKeys(Inner(recs, ms))
  {
    if Get(recs, ms).Some? {
      GetInRecords(recs, ms);
    }
  }

  /** `set` keeps the records well formed. */
  lemma SetKeepsWellFormed(recs: Records, ms: string, pod: string, usage: real)
    requires WellFormed(recs)
    ensures WellFormed(SetUsage(recs, ms, pod, usage))
  {
    var inner := Put(Inner(recs, ms), pod, usage);
    InnerWellFormed(recs, ms);
    KeysPut(Inner(recs, ms), pod, usage);
    PutEntries(Inner(recs, ms), pod, usage);
    KeysPut(recs, ms, inner);
    PutEntries(recs, ms, inner);
    var out := SetUsage(recs, ms, pod, usage);
    forall i | 0 <= i < |out| ensures NoDupKeys(out[i].1) && |out[i].1| > 0 {
      assert out[i] in out;
      if out[i] != (ms, inner) {
        var j :| 0 <= j < |recs| && recs[j] == out[i];
      }
    }
  }

  /** After `set(ms, pod, usage)`, `get(ms, pod) == usage`. */
  lemma LookupSetSame(recs: Records, ms: string, pod: string, usage: real)
    ensures Lookup(SetUsage(recs, ms, pod, usage), ms, pod) == Some(usage)
  {
    GetPutSame(recs, ms, Put(Inner(recs, ms), pod, usage));
    GetPutSame(Inner(recs, ms), pod, usage);
  }

  /** `set(ms, pod, usage)` leaves every other `(ms', pod')` entry as it was. */
  lemma LookupSetOther(recs: Records, ms: string, pod: string, usage: real, ms': string, pod': string)
    requires (ms', pod') != (ms, pod)
    ensures Lookup(SetUsage(recs, ms, pod, usage), ms', pod') == Lookup(recs, ms', pod')
  {
    var inner := Put(Inner(recs, ms), pod, usage);
    if ms' == ms {
      GetPutSame(recs, ms, inner);
      GetPutOther(Inner(recs, ms), pod, usage, pod');
    } else {
      GetPutOther(recs, ms, inner, ms');
    }
  }

  /** The rows contributed by one microservice's dict, in pod insertion order. */
  function InnerRows(ms: string, inner: OMap<string, real>): (rows: seq<UsageRow>)
    ensures |rows| == |inner|
    ensures forall i :: 0 <= i < |inner| ==> rows[i] == UsageRow(ms, inner[i].0, inner[i].1)
  {
    seq(|inner|, i requires 0 <= i < |inner| => UsageRow(ms, inner[i].0, inner[i].1))
  }

  /** The concatenated per-microservice tables, microservices in insertion order. */
  function Rows(recs: Records): seq<UsageRow>
  {
    if |recs| == 0 then []
    else Rows(recs[..|recs| - 1]) + InnerRows(recs[|recs| - 1].0, recs[|recs| - 1].1)
  }

  lemma {:induction false} InnerLookup(inner: OMap<string, real>, pod: string, usage: real)
    requires NoDupKeys(inner)
    ensures (pod, usage) in inner <==> Get(inner, pod) == Some(usage)
  {
    if (pod, usage) in inner {
      var i :| 0 <= i < |inner| && inner[i] == (pod, usage);
      GetAt(inner, i);
    }
    if Get(inner, pod) == Some(usage) {
      GetSome(inner, pod);
      var i :| 0 <= i < |inner| && Keys(inner)[i] == pod;
      GetAt(inner, i);
    }
  }

  lemma {:induction false} PrefixGet(recs: Records, ms: string)
    requires NoDupKeys(recs) && |recs| > 0 && recs[|recs| - 1].0 != ms
    ensures Get(recs, ms) == Get(recs[..|recs| - 1], ms)
  {
    if |recs| > 1 {
      assert recs[1..][..|recs[1..]| - 1] == recs[..|recs| - 1][1..];
      PrefixGet(recs[1..], ms);
    }
  }

  lemma {:induction false} LastGet(recs: Records)
    requires NoDupKeys(recs) && |recs| > 0
    ensures Get(recs, recs[|recs| - 1].0) == Some(recs[|recs| - 1].1)
  {
    GetAt(recs, |recs| - 1);
  }

  /** `to_pandas` has exactly one row per stored entry. */
  lemma {:induction false} RowsAreEntries(recs: Records, ms: string, pod: string, usage: real)
    requires WellFormed(recs)
    ensures UsageRow(ms, pod, usage) in Rows(recs) <==> Lookup(recs, ms, pod) == Some(usage)
    decreases |recs|
  {
    if |recs| > 0 {
      var prefix := recs[..|recs| - 1];
      var last := recs[|recs| - 1];
      assert WellFormed(prefix) by {
        forall i | 0 <= i < |prefix| ensures NoDupKeys(prefix[i].1) && |prefix[i].1| > 0 {
          assert prefix[i] == recs[i];
        }
      }
      RowsAreEntries(prefix, ms, pod, usage);
      var row := UsageRow(ms, pod, usage);
      assert row in Rows(recs) <==> row in Rows(prefix) || row in InnerRows(last.0, last.1);
      assert row in InnerRows(last.0, last.1) <==> last.0 == ms && (pod, usage) in last.1 by {
        if row in InnerRows(last.0, last.1) {
          var i :| 0 <= i < |last.1| && InnerRows(last.0, last.1)[i] == row;
          assert last.1[i] == (pod, usage);
        }
        if last.0 == ms && (pod, usage) in last.1 {
          var i :| 0 <= i < |last.1| && last.1[i] == (pod, usage);
          assert InnerRows(last.0, last.1)[i] == row;
        }
      }
      if last.0 == ms {
        LastGet(recs);
        InnerLookup(last.1, pod, usage);
        GetSome(prefix, ms);
        assert Get(prefix, ms).None?;
      } else {
        PrefixGet(recs, ms);
      }
    }
  }

  /** The table has no two rows for the same `(microservice, pod)`. */
  lemma {:induction false} RowsDistinct(recs: Records)
    requires WellFormed(recs)
    ensures forall i, j :: 0 <= i < j < |Rows(recs)| ==>
      (Rows(recs)[i].microservice, Rows(recs)[i].pod) != (Rows(recs)[j].microservice, Rows(recs)[j].pod)
  {
    var rows := Rows(recs);
    forall i, j | 0 <= i < j < |rows|
      ensures (rows[i].microservice, rows[i].pod) != (rows[j].microservice, rows[j].pod)
    {
      if (rows[i].microservice, rows[i].pod) == (rows[j].microservice, rows[j].pod) {
        var a := rows[i];
        var b := rows[j];
        assert a in rows && b in rows;
        RowsAreEntries(recs, a.microservice, a.pod, a.usage);
        RowsAreEntries(recs, b.microservice, b.pod, b.usage);
        assert a.usage == b.usage;
        assert a == b;
        RowsHaveNoDup(recs, i, j);
      }
    }
  }

  lemma {:induction false} InnerRowsNoDup(ms: string, inner: OMap<string, real>)
    requires NoDupKeys(inner)
    ensures forall i, j :: 0 <= i < j < |inner| ==> InnerRows(ms, inner)[i] != InnerRows(ms, inner)[j]
  {
  }

  lemma {:induction false} RowsHaveNoDup(recs: Records, i: nat, j: nat)
    requires WellFormed(recs) && i < j < |Rows(recs)|
    ensures Rows(recs)[i] != Rows(recs)[j]
    decreases |recs|
  {
    var prefix := recs[..|recs| - 1];
    var last := recs[|recs| - 1];
    assert WellFormed(prefix) by {
      forall k | 0 <= k < |prefix| ensures NoDupKeys(prefix[k].1) && |prefix[k].1| > 0 {
        assert prefix[k] == recs[k];
      }
    }
    var pr := Rows(prefix);
    var lr := InnerRows(last.0, last.1);
    assert Rows(recs) == pr + lr;
    if j < |pr| {
      RowsHaveNoDup(prefix, i, j);
    } else if i >= |pr| {
      InnerRowsNoDup(last.0, last.1);
    } else {
      var a := pr[i];
      assert a in pr;
      if a == lr[j - |pr|] {
        RowsAreEntries(prefix, a.microservice, a.pod, a.usage);
        GetSome(prefix, a.microservice);
      }
    }
  }

  /** `UsageRecords`: the nested dictionary, updated in place by `set`. */
  class UsageRecords {
    var records: Records

    ghost predicate Valid()
      reads this
    {
      WellFormed(records)
    }

    constructor()
      ensures records == [] && Valid()
    {
      records := [];
    }

    /** `set(microservice, pod, usage)`: creates the inner dict if needed, then writes. */
    method Set(microservice: string, pod: string, usage: real)
      requires Valid()
      modifies this
      ensures records == SetUsage(old(records), microservice, pod, usage)
      ensures Valid()
    {
      SetKeepsWellFormed(records, microservice, pod, usage);
      var inner: OMap<string, real> := [];
      var found := OrderedMaps.Get(records, microservice);
      if found.Some? {
        inner := found.value;
      }
      records := Put(records, microservice, Put(inner, pod, usage));
    }

    /** `get(microservice, pod)`. */
    function Get(microservice: string, pod: string): (r: Option<real>)
      reads this
      ensures r == Lookup(records, microservice, pod)
    {
      Lookup(records, microservice, pod)
    }

    /** `to_pandas()`: one table per microservice, concatenated; concatenating no
        tables raises ValueError. */
    method ToPandas() returns (r: Result<seq<UsageRow>>)
      ensures |records| == 0 ==> r == Err(ValueError)
      ensures |records| > 0 ==> r == Ok(Rows(records))
    {
      var rows: seq<UsageRow> := [];
      for i := 0 to |records|
        invariant rows == Rows(records[..i])
      {
        assert records[..i + 1][..i] == records[..i];
        rows := rows + InnerRows(records[i].0, records[i].1);
      }
      assert records[..|records|] == records;
      if |records| == 0 {
        return Err(ValueError);
      }
      return Ok(rows);
    }
  }
}
