/** Python dictionaries, which remember insertion order: an association list whose
    keys are distinct. `Put` overwrites an existing key in place and appends a new
    key at the end, as `d[k] = v` does. */
module OrderedMaps {
  import opened Wrappers
  import opened Seqs

  type OMap<K, V> = seq<(K, V)>

  function Keys<K, V>(m: OMap<K, V>): (ks: seq<K>)
    ensures |ks| == |m|
    ensures forall i :: 0 <= i < |m| ==> ks[i] == m[i].0
  {
    if |m| == 0 then [] else [m[0].0] + Keys(m[1..])
  }

  predicate NoDupKeys<K(==), V>(m: OMap<K, V>)
  {
    forall i, j :: 0 <= i < j < |m| ==> m[i].0 != m[j].0
  }

  /** `d.get(k)`: the value stored under `k`, or None. */
  function Get<K(==), V>(m: OMap<K, V>, k: K): Option<V>
  {
    if |m| == 0 then None
    else if m[0].0 == k then Some(m[0].1)
    else Get(m[1..], k)
  }

  /** A pair added at the end is found only for a key not found before it. */
  lemma {:induction false} GetSnoc<K, V>(m: OMap<K, V>, k: K, v: V, key: K)
    ensures Get(m + [(k, v)], key) == if Get(m, key).Some? then Get(m, key) else if k == key then Some(v) else None
  {
    if |m| > 0 {
      assert (m + [(k, v)])[1..] == m[1..] + [(k, v)];
      GetSnoc(m[1..], k, v, key);
    }
  }

  /** `d[k] = v`. */
  function Put<K(==), V>(m: OMap<K, V>, k: K, v: V): OMap<K, V>
  {
    if |m| == 0 then [(k, v)]
    else if m[0].0 == k then [(k, v)] + m[1..]
    else [m[0]] + Put(m[1..], k, v)
  }

  lemma {:induction false} GetSome<K, V>(m: OMap<K, V>, k: K)
    ensures Get(m, k).Some? <==> k in Keys(m)
  {
    if |m| > 0 {
      GetSome(m[1..], k);
      assert Keys(m) == [m[0].0] + Keys(m[1..]);
    }
  }

  /** A value found is a value stored: the one of the key's first entry. */
  lemma {:induction false} GetIn<K, V>(m: OMap<K, V>, k: K)
    requires Get(m, k).Some?
    ensures (k, Get(m, k).value) in m
  {
    if m[0].0 != k {
      GetIn(m[1..], k);
    }
  }

  lemma {:induction false} GetAt<K, V>(m: OMap<K, V>, i: nat)
    requires NoDupKeys(m) && i < |m|
    ensures Get(m, m[i].0) == Some(m[i].1)
  {
    if i > 0 {
      GetAt(m[1..], i - 1);
    }
  }

  /** After `d[k] = v`, `d[k] == v`. */
  lemma {:induction false} GetPutSame<K, V>(m: OMap<K, V>, k: K, v: V)
    ensures Get(Put(m, k, v), k) == Some(v)
  {
    if |m| > 0 && m[0].0 != k {
      GetPutSame(m[1..], k, v);
    }
  }

  /** `d[k] = v` leaves every other key as it was. */
  lemma {:induction false} GetPutOther<K, V>(m: OMap<K, V>, k: K, v: V, k': K)
    requires k' != k
    ensures Get(Put(m, k, v), k') == Get(m, k')
  {
    if |m| > 0 && m[0].0 != k {
      GetPutOther(m[1..], k, v, k');
    }
  }

  /** An existing key keeps its position; a new key goes last. */
  lemma {:induction false} KeysPutOrder<K, V>(m: OMap<K, V>, k: K, v: V)
    ensures Keys(Put(m, k, v)) == if k in Keys(m) then Keys(m) else Keys(m) + [k]
  {
    if |m| > 0 {
      assert Keys(m) == [m[0].0] + Keys(m[1..]);
      if m[0].0 != k {
        KeysPutOrder(m[1..], k, v);
        var p := Put(m[1..], k, v);
        assert Put(m, k, v) == [m[0]] + p;
        assert Keys([m[0]] + p) == [m[0].0] + Keys(p);
      } else {
        assert Keys(Put(m, k, v)) == [k] + Keys(m[1..]);
      }
    }
  }

  /** `d[k] = v` keeps the keys distinct. */
  lemma KeysPut<K, V>(m: OMap<K, V>, k: K, v: V)
    requires NoDupKeys(m)
    ensures Keys(Put(m, k, v)) == if k in Keys(m) then Keys(m) else Keys(m) + [k]
    ensures NoDupKeys(Put(m, k, v))
  {
    KeysPutOrder(m, k, v);
    var p := Put(m, k, v);
    forall i, j | 0 <= i < j < |p| ensures p[i].0 != p[j].0 {
      assert Keys(p)[i] == p[i].0 && Keys(p)[j] == p[j].0;
      assert Keys(m)[i] == m[i].0;
      if j < |m| {
        assert Keys(m)[j] == m[j].0;
      }
    }
  }

  /** Insertion order of keys after a sequence of `d[k] = v` writes from an empty dict. */
  function PutAll<K(==), V>(m: OMap<K, V>, kvs: seq<(K, V)>): OMap<K, V>
    decreases |kvs|
  {
    if |kvs| == 0 then m else PutAll(Put(m, kvs[0].0, kvs[0].1), kvs[1..])
  }

  lemma {:induction false} PutAllNoDup<K, V>(m: OMap<K, V>, kvs: seq<(K, V)>)
    requires NoDupKeys(m)
    ensures NoDupKeys(PutAll(m, kvs))
    decreases |kvs|
  {
    if |kvs| > 0 {
      KeysPut(m, kvs[0].0, kvs[0].1);
      PutAllNoDup(Put(m, kvs[0].0, kvs[0].1), kvs[1..]);
    }
  }

  /** Writing the pairs one at a time, left to right. */
  lemma {:induction false} PutAllSnoc<K, V>(m: OMap<K, V>, kvs: seq<(K, V)>, k: K, v: V)
    ensures PutAll(m, kvs + [(k, v)]) == Put(PutAll(m, kvs), k, v)
    decreases |kvs|
  {
    if |kvs| > 0 {
      assert (kvs + [(k, v)])[1..] == kvs[1..] + [(k, v)];
      PutAllSnoc(Put(m, kvs[0].0, kvs[0].1), kvs[1..], k, v);
    }
  }

  /** The last write to a key wins. */
  lemma {:induction false} GetPutAll<K, V>(m: OMap<K, V>, kvs: seq<(K, V)>, k: K)
    ensures Get(PutAll(m, kvs), k) ==
      if k in Keys(kvs) then Some(LastValue(kvs, k)) else Get(m, k)
    decreases |kvs|
  {
    if |kvs| > 0 {
      GetPutAll(Put(m, kvs[0].0, kvs[0].1), kvs[1..], k);
      assert Keys(kvs) == [kvs[0].0] + Keys(kvs[1..]);
      if k == kvs[0].0 {
        GetPutSame(m, k, kvs[0].1);
      } else {
        GetPutOther(m, kvs[0].0, kvs[0].1, k);
      }
    }
  }

  /** Keys come out in the order of their first write. */
  lemma {:induction false} KeysPutAll<K, V>(m: OMap<K, V>, kvs: seq<(K, V)>)
    requires NoDupKeys(m)
    ensures NoDup(Keys(m))
    ensures Keys(PutAll(m, kvs)) == DistinctFrom(Keys(kvs), Keys(m))
    decreases |kvs|
  {
    assert NoDup(Keys(m));
    if |kvs| > 0 {
      KeysPut(m, kvs[0].0, kvs[0].1);
      KeysPutAll(Put(m, kvs[0].0, kvs[0].1), kvs[1..]);
      assert Keys(kvs) == [kvs[0].0] + Keys(kvs[1..]);
      assert Keys(kvs)[1..] == Keys(kvs[1..]);
    }
  }

  /** The value of the last pair with key `k`. */
  function LastValue<K(==), V>(kvs: seq<(K, V)>, k: K): V
    requires k in Keys(kvs)
  {
    assert Keys(kvs) == [kvs[0].0] + Keys(kvs[1..]);
    if k in Keys(kvs[1..]) then LastValue(kvs[1..], k) else kvs[0].1
  }

  /** A key written first and never again keeps its first value. */
  lemma LastValueHead<K, V>(k: K, v: V, rest: seq<(K, V)>)
    requires k !in Keys(rest)
    ensures k in Keys([(k, v)] + rest) && LastValue([(k, v)] + rest, k) == v
  {
    assert ([(k, v)] + rest)[0].0 == k && ([(k, v)] + rest)[1..] == rest;
  }
}
