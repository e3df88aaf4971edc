/**
 * A Python `dict`: keys in insertion order, each key at most once.
 * Assigning to an existing key keeps its position and replaces its value;
 * assigning to a new key appends it. `update` assigns the entries of another
 * dict one by one, in that dict's order.
 */
module PyDict {
  import opened Wrappers

  type Dict<K, V> = seq<(K, V)>

  function Keys<K, V>(d: Dict<K, V>): (ks: seq<K>)
    ensures |ks| == |d| && forall i :: 0 <= i < |d| ==> ks[i] == d[i].0
  {
    seq(|d|, i requires 0 <= i < |d| => d[i].0)
  }

  ghost predicate KeysUnique<K, V>(d: Dict<K, V>)
  {
    forall i, j :: 0 <= i < j < |d| ==> d[i].0 != d[j].0
  }

  /** The position of key `k` in `d`, or -1 when `d` does not hold it. */
  function IndexOfKey<K(==), V>(d: Dict<K, V>, k: K): (i: int)
    ensures i == -1 <==> k !in Keys(d)
    ensures i != -1 ==> 0 <= i < |d| && d[i].0 == k && forall j :: 0 <= j < i ==> d[j].0 != k
  {
    if d == [] then -1
    else if d[0].0 == k then 0
    else
      var i := IndexOfKey(d[1..], k);
      if i == -1 then -1 else i + 1
  }

  /** `d.get(k)`. */
  function Get<K(==), V>(d: Dict<K, V>, k: K): (r: Option<V>)
    ensures r.None? <==> k !in Keys(d)
    ensures r.Some? ==> (k, r.value) in d
  {
    var i := IndexOfKey(d, k);
    if i == -1 then None else Some(d[i].1)
  }

  /** `d.get(k, default)`, also what a `defaultdict` read returns for a missing key. */
  function GetOr<K(==), V>(d: Dict<K, V>, k: K, default: V): V
  {
    match Get(d, k)
    case Some(v) => v
    case None => default
  }

  /** `d[k] = v`. */
  function Put<K(==), V>(d: Dict<K, V>, k: K, v: V): (r: Dict<K, V>)
    ensures k in Keys(d) ==> Keys(r) == Keys(d)
    ensures k !in Keys(d) ==> Keys(r) == Keys(d) + [k]
  {
    var i := IndexOfKey(d, k);
    if i == -1 then d + [(k, v)] else d[i := (k, v)]
  }

  /** The position of a key depends on the keys only. */
  lemma IndexOfKeyByKeys<K, V>(d: Dict<K, V>, d': Dict<K, V>, k: K)
    requires Keys(d) <= Keys(d')
    requires k in Keys(d) || k !in Keys(d')
    ensures IndexOfKey(d, k) == IndexOfKey(d', k)
  {
    var i, j := IndexOfKey(d, k), IndexOfKey(d', k);
    if i != -1 {
      assert Keys(d')[i] == k;
    }
  }

  /** After `d[k] = v`, `k` holds `v` and every other key keeps its value. */
  lemma PutGet<K, V>(d: Dict<K, V>, k: K, v: V, k': K)
    ensures Get(Put(d, k, v), k') == if k' == k then Some(v) else Get(d, k')
  {
    var r := Put(d, k, v);
    var i := IndexOfKey(d, k);
    if i == -1 {
      if k' == k {
        assert IndexOfKey(r, k) == |d|;
      } else {
        assert Keys(d) <= Keys(r);
        IndexOfKeyByKeys(d, r, k');
      }
    } else {
      IndexOfKeyByKeys(d, r, k');
    }
  }

  /** `PutGet` for every key at once. */
  lemma PutGetAll<K, V>(d: Dict<K, V>, k: K, v: V)
    ensures forall k' :: Get(Put(d, k, v), k') == if k' == k then Some(v) else Get(d, k')
  {
    forall k' ensures Get(Put(d, k, v), k') == if k' == k then Some(v) else Get(d, k') {
      PutGet(d, k, v, k');
    }
  }

  /** Assigning a key keeps the keys unique. */
  lemma PutUnique<K, V>(d: Dict<K, V>, k: K, v: V)
    requires KeysUnique(d)
    ensures KeysUnique(Put(d, k, v))
  {
    var r := Put(d, k, v);
    forall i, j | 0 <= i < j < |r| ensures r[i].0 != r[j].0 {
      assert Keys(r)[i] == r[i].0 && Keys(r)[j] == r[j].0;
      if j < |d| {
        assert Keys(d)[i] == d[i].0 && Keys(d)[j] == d[j].0;
      } else {
        assert Keys(d)[i] == d[i].0;
      }
    }
  }

  /** `d.update(e)`: the entries of `e` assigned in order. */
  function Update<K(==), V>(d: Dict<K, V>, e: Dict<K, V>): (r: Dict<K, V>)
    decreases |e|
  {
    if e == [] then d else Update(Put(d, e[0].0, e[0].1), e[1..])
  }

  /**
   * After `d.update(e)`, a key of `e` holds its value from `e` and every
   * other key keeps its value from `d`.
   */
  lemma {:induction false} UpdateGet<K, V>(d: Dict<K, V>, e: Dict<K, V>, k: K)
    requires KeysUnique(e)
    ensures Get(Update(d, e), k) == if k in Keys(e) then Get(e, k) else Get(d, k)
    decreases |e|
  {
    if e != [] {
      var t := e[1..];
      var d' := Put(d, e[0].0, e[0].1);
      assert KeysUnique(t);
      PutGet(d, e[0].0, e[0].1, k);
      UpdateGet(d', t, k);
      assert Update(d, e) == Update(d', t);
      if k == e[0].0 {
        assert k !in Keys(t) by {
          forall j | 0 <= j < |t| ensures Keys(t)[j] != k {
            assert t[j] == e[j + 1];
          }
        }
      } else {
        GetTail(e, k);
      }
    }
  }

  /** `update` with a suffix of `e`: the first entry assigned, then the rest. */
  lemma UpdateSuffix<K, V>(d: Dict<K, V>, e: Dict<K, V>, i: nat)
    requires i < |e|
    ensures Update(d, e[i..]) == Update(Put(d, e[i].0, e[i].1), e[i + 1..])
  {
    assert e[i..][1..] == e[i + 1..];
  }

  lemma GetTail<K, V>(e: Dict<K, V>, k: K)
    requires e != [] && e[0].0 != k
    ensures Get(e, k) == Get(e[1..], k)
    ensures k in Keys(e) <==> k in Keys(e[1..])
  {
    var t := e[1..];
    assert Keys(e) == [e[0].0] + Keys(t);
  }

  /** `update` keeps the keys unique, keeps the old keys in place and adds the new ones. */
  lemma {:induction false} UpdateKeys<K, V>(d: Dict<K, V>, e: Dict<K, V>)
    ensures KeysUnique(d) ==> KeysUnique(Update(d, e))
    ensures Keys(d) <= Keys(Update(d, e))
    ensures forall k :: k in Keys(Update(d, e)) <==> k in Keys(d) || k in Keys(e)
    decreases |e|
  {
    if e != [] {
      var d' := Put(d, e[0].0, e[0].1);
      if KeysUnique(d) { PutUnique(d, e[0].0, e[0].1); }
      UpdateKeys(d', e[1..]);
      assert Keys(e) == [e[0].0] + Keys(e[1..]);
    }
  }

  /** Each dictionary of `ds` has no key twice. */
  ghost predicate AllUnique<K, V>(ds: seq<Dict<K, V>>)
  {
    forall i :: 0 <= i < |ds| ==> KeysUnique(ds[i])
  }

  /** `d.update(x)` for the first `n` dictionaries `x` of `ds`, in order. */
  function UpdateAll<K(==), V>(d: Dict<K, V>, ds: seq<Dict<K, V>>, n: nat): Dict<K, V>
    requires n <= |ds|
  {
    if n == 0 then d else Update(UpdateAll(d, ds, n - 1), ds[n - 1])
  }

  /** The value of `k` in the last of the first `n` dictionaries of `ds` that holds it. */
  function LastValue<K(==), V>(ds: seq<Dict<K, V>>, n: nat, k: K): Option<V>
    requires n <= |ds|
  {
    if n == 0 then None
    else if Get(ds[n - 1], k).Some? then Get(ds[n - 1], k)
    else LastValue(ds, n - 1, k)
  }

  /** Merging dictionaries in order: each key ends with its value from the last one holding it. */
  lemma {:induction false} UpdateAllGet<K, V>(d: Dict<K, V>, ds: seq<Dict<K, V>>, n: nat, k: K)
    requires n <= |ds| && AllUnique(ds)
    ensures LastValue(ds, n, k).Some? ==> Get(UpdateAll(d, ds, n), k) == LastValue(ds, n, k)
    ensures LastValue(ds, n, k).None? ==> Get(UpdateAll(d, ds, n), k) == Get(d, k)
  {
    if n > 0 {
      UpdateAllGet(d, ds, n - 1, k);
      UpdateAllStep(d, ds, n, k);
    }
  }

  /** One more dictionary merged: its keys take its values, the others keep theirs. */
  lemma UpdateAllStep<K, V>(d: Dict<K, V>, ds: seq<Dict<K, V>>, n: nat, k: K)
    requires 0 < n <= |ds| && KeysUnique(ds[n - 1])
    requires LastValue(ds, n - 1, k).Some? ==> Get(UpdateAll(d, ds, n - 1), k) == LastValue(ds, n - 1, k)
    requires LastValue(ds, n - 1, k).None? ==> Get(UpdateAll(d, ds, n - 1), k) == Get(d, k)
    ensures LastValue(ds, n, k).Some? ==> Get(UpdateAll(d, ds, n), k) == LastValue(ds, n, k)
    ensures LastValue(ds, n, k).None? ==> Get(UpdateAll(d, ds, n), k) == Get(d, k)
  {
    UpdateGet(UpdateAll(d, ds, n - 1), ds[n - 1], k);
  }

  /** Merging dictionaries in order keeps the keys unique. */
  lemma {:induction false} UpdateAllUnique<K, V>(d: Dict<K, V>, ds: seq<Dict<K, V>>, n: nat)
    requires n <= |ds| && KeysUnique(d)
    ensures KeysUnique(UpdateAll(d, ds, n))
  {
    if n > 0 {
      UpdateAllUnique(d, ds, n - 1);
      UpdateKeys(UpdateAll(d, ds, n - 1), ds[n - 1]);
    }
  }

  /** Merging dictionaries in order holds exactly the keys of `d` and of the others. */
  lemma {:induction false} UpdateAllKeys<K, V>(d: Dict<K, V>, ds: seq<Dict<K, V>>, n: nat)
    requires n <= |ds|
    ensures forall k :: k in Keys(UpdateAll(d, ds, n)) <==> k in Keys(d) || LastValue(ds, n, k).Some?
  {
    if n > 0 {
      UpdateAllKeys(d, ds, n - 1);
      UpdateKeys(UpdateAll(d, ds, n - 1), ds[n - 1]);
    }
  }

  /** The value of the last entry of `e` whose key is `k`. */
  function LastFor<K(==), V>(e: Dict<K, V>, k: K): (r: Option<V>)
    ensures r.None? <==> k !in Keys(e)
  {
    if e == [] then None
    else if e[|e| - 1].0 == k then Some(e[|e| - 1].1)
    else
      assert Keys(e) == Keys(e[..|e| - 1]) + [e[|e| - 1].0];
      LastFor(e[..|e| - 1], k)
  }

  /** The last entry of `e` whose key is `k` gives `LastFor(e, k)`. */
  lemma {:induction false} LastForAt<K, V>(e: Dict<K, V>, k: K, j: nat)
    requires j < |e| && e[j].0 == k
    requires forall i :: j < i < |e| ==> e[i].0 != k
    ensures LastFor(e, k) == Some(e[j].1)
    decreases |e|
  {
    if j < |e| - 1 {
      var init := e[..|e| - 1];
      assert init[j] == e[j];
      LastForAt(init, k, j);
    }
  }

  /** When every entry of `e` with key `k` holds `v`, so does the last. */
  lemma {:induction false} LastForSame<K, V>(e: Dict<K, V>, k: K, v: V)
    requires forall i :: 0 <= i < |e| && e[i].0 == k ==> e[i].1 == v
    ensures k in Keys(e) ==> LastFor(e, k) == Some(v)
    decreases |e|
  {
    if e != [] && e[|e| - 1].0 != k {
      var init := e[..|e| - 1];
      assert Keys(e) == Keys(init) + [e[|e| - 1].0];
      forall i | 0 <= i < |init| && init[i].0 == k ensures init[i].1 == v {
        assert init[i] == e[i];
      }
      LastForSame(init, k, v);
    }
  }

  /** Assigning one more entry after `update`. */
  lemma {:induction false} UpdateSnoc<K, V>(d: Dict<K, V>, e: Dict<K, V>, k: K, v: V)
    ensures Update(d, e + [(k, v)]) == Put(Update(d, e), k, v)
    decreases |e|
  {
    if e == [] {
      assert e + [(k, v)] == [(k, v)];
    } else {
      assert (e + [(k, v)])[1..] == e[1..] + [(k, v)];
      UpdateSnoc(Put(d, e[0].0, e[0].1), e[1..], k, v);
    }
  }

  /**
   * `update` with entries whose keys may repeat: each key ends with the
   * value of its last entry, every other key keeps its value.
   */
  lemma {:induction false} UpdateLastWins<K, V>(d: Dict<K, V>, e: Dict<K, V>, k: K)
    ensures Get(Update(d, e), k) == if k in Keys(e) then LastFor(e, k) else Get(d, k)
    decreases |e|
  {
    if e != [] {
      var init := e[..|e| - 1];
      var last := e[|e| - 1];
      assert e == init + [last];
      assert Keys(e) == Keys(init) + [last.0];
      UpdateSnoc(d, init, last.0, last.1);
      PutGet(Update(d, init), last.0, last.1, k);
      UpdateLastWins(d, init, k);
    }
  }

  /** `update` with two lists of entries one after the other. */
  lemma {:induction false} UpdateConcat<K, V>(d: Dict<K, V>, a: Dict<K, V>, b: Dict<K, V>)
    ensures Update(Update(d, a), b) == Update(d, a + b)
    decreases |a|
  {
    if a != [] {
      assert (a + b)[1..] == a[1..] + b;
      UpdateConcat(Put(d, a[0].0, a[0].1), a[1..], b);
    } else {
      assert a + b == b;
    }
  }
}
