/**
 * Python's `dict`: a finite map that remembers insertion order. The integration depends on
 * that order (the cheapest hour is the first minimal entry, the hours of an extreme price are
 * listed in order, `{**a, **b}` keeps the keys of `a` first), so a dict is modelled as the
 * sequence of its entries; a genuine dict has distinct keys (`Distinct`).
 */
module OrderedDict {
  import opened Wrappers

  type Dict<K, V> = seq<(K, V)>

  function Keys<K, V>(d: Dict<K, V>): (ks: seq<K>)
    ensures |ks| == |d|
    ensures forall i :: 0 <= i < |d| ==> ks[i] == d[i].0
  {
    seq(|d|, i requires 0 <= i < |d| => d[i].0)
  }

  /** `k in d` */
  predicate HasKey<K(==), V>(d: Dict<K, V>, k: K) {
    |d| > 0 && (d[0].0 == k || HasKey(d[1..], k))
  }

  /** No key occurs twice, as in every Python dict. */
  predicate Distinct<K(==), V>(d: Dict<K, V>) {
    |d| == 0 || (!HasKey(d[1..], d[0].0) && Distinct(d[1..]))
  }

  /** `d.get(k)`: the value stored under `k`, or `None`. */
  function Get<K(==), V>(d: Dict<K, V>, k: K): (r: Option<V>)
    ensures r.Some? <==> HasKey(d, k)
    ensures r.Some? ==> exists i :: 0 <= i < |d| && d[i] == (k, r.value)
  {
    if |d| == 0 then None
    else if d[0].0 == k then Some(d[0].1)
    else
      var r := Get(d[1..], k);
      assert r.Some? ==> exists i :: 1 <= i < |d| && d[i] == (k, r.value);
      r
  }

  /** Every key at some index is a key of the dict. */
  lemma {:induction false} HasKeyAt<K, V>(d: Dict<K, V>, i: int)
    requires 0 <= i < |d|
    ensures HasKey(d, d[i].0)
  {
    if i > 0 {
      HasKeyAt(d[1..], i - 1);
    }
  }

  /** In a genuine dict, the entry at index `i` is what `get` finds for its key. */
  lemma {:induction false} GetAt<K, V>(d: Dict<K, V>, i: int)
    requires Distinct(d) && 0 <= i < |d|
    ensures Get(d, d[i].0) == Some(d[i].1)
  {
    if i > 0 {
      GetAt(d[1..], i - 1);
      HasKeyAt(d[1..], i - 1);
    }
  }

  /**
   * `d[k] = v`: an existing key keeps its position and gets the new value; a new key is
   * appended at the end.
   */
  function Put<K(==,!new), V>(d: Dict<K, V>, k: K, v: V): (r: Dict<K, V>)
    ensures Get(r, k) == Some(v)
    ensures forall j :: j != k ==> Get(r, j) == Get(d, j)
    ensures HasKey(d, k) ==> |r| == |d| && forall i :: 0 <= i < |d| ==> r[i].0 == d[i].0
    ensures !HasKey(d, k) ==> r == d + [(k, v)]
    ensures Distinct(d) ==> Distinct(r)
  {
    if |d| == 0 then [(k, v)]
    else if d[0].0 == k then [(k, v)] + d[1..]
    else
      var t := Put(d[1..], k, v);
      assert Get(t, d[0].0) == Get(d[1..], d[0].0);
      assert !HasKey(d, k) ==> [d[0]] + (d[1..] + [(k, v)]) == d + [(k, v)];
      [d[0]] + t
  }

  /** Removes the entry for `k`, if any; the other entries keep their order. */
  function Remove<K(==,!new), V>(d: Dict<K, V>, k: K): (r: Dict<K, V>)
    ensures Distinct(d) ==> !HasKey(r, k)
    ensures forall j :: j != k ==> Get(r, j) == Get(d, j)
    ensures Distinct(d) ==> Distinct(r)
    ensures |r| <= |d|
  {
    if |d| == 0 then []
    else if d[0].0 == k then d[1..]
    else
      var r := [d[0]] + Remove(d[1..], k);
      assert Get(Remove(d[1..], k), d[0].0) == Get(d[1..], d[0].0);
      r
  }

  /**
   * `d.pop(k, default)`: the value under `k` (or `default`) and the dict without `k`, every
   * other key keeping its value.
   */
  function Pop<K(==,!new), V>(d: Dict<K, V>, k: K, default: V): (r: (V, Dict<K, V>))
    ensures HasKey(d, k) ==> Get(d, k) == Some(r.0)
    ensures !HasKey(d, k) ==> r.0 == default
    ensures Distinct(d) ==> Distinct(r.1) && !HasKey(r.1, k)
    ensures forall j :: j != k ==> Get(r.1, j) == Get(d, j)
    ensures |r.1| <= |d|
  {
    (Get(d, k).GetOr(default), Remove(d, k))
  }

  /** `{**a, **b}`: the entries of `b` written over a copy of `a`, in order. */
  function Merge<K(==,!new), V>(a: Dict<K, V>, b: Dict<K, V>): (r: Dict<K, V>)
    ensures Distinct(a) ==> Distinct(r)
    ensures Distinct(b) ==> forall k :: Get(r, k) == if HasKey(b, k) then Get(b, k) else Get(a, k)
    decreases |b|
  {
    if |b| == 0 then a
    else Merge(Put(a, b[0].0, b[0].1), b[1..])
  }

  /** Appending an entry adds exactly its key. */
  lemma {:induction false} HasKeyAppend<K, V>(d: Dict<K, V>, e: (K, V), k: K)
    ensures HasKey(d + [e], k) <==> HasKey(d, k) || e.0 == k
  {
    if |d| > 0 {
      assert (d + [e])[1..] == d[1..] + [e];
      HasKeyAppend(d[1..], e, k);
    }
  }

  /** Writing an entry with a new key over `a` appends it. */
  lemma MergeStep<K(!new), V>(a: Dict<K, V>, b: Dict<K, V>)
    requires |b| > 0 && !HasKey(a, b[0].0)
    ensures Merge(a, b) == Merge(a + [b[0]], b[1..])
  {
    assert Put(a, b[0].0, b[0].1) == a + [b[0]];
  }

  lemma FreshRest<K, V>(a: Dict<K, V>, b: Dict<K, V>)
    requires |b| > 0 && Distinct(b)
    requires forall i :: 0 <= i < |b| ==> !HasKey(a, b[i].0)
    ensures forall i :: 0 <= i < |b| - 1 ==> !HasKey(a + [b[0]], b[1..][i].0)
  {
    forall i | 0 <= i < |b| - 1
      ensures !HasKey(a + [b[0]], b[1..][i].0)
    {
      HasKeyAt(b[1..], i);
      HasKeyAppend(a, b[0], b[1..][i].0);
    }
  }

  lemma Regroup<T>(a: seq<T>, b: seq<T>)
    requires |b| > 0
    ensures (a + [b[0]]) + b[1..] == a + b
  {
  }

  /**
   * Writing a genuine dict over one that holds none of its keys appends its entries in
   * order; in particular `{**{}, **b} == b`.
   */
  lemma {:induction false} MergeFresh<K(!new), V>(a: Dict<K, V>, b: Dict<K, V>)
    requires Distinct(b)
    requires forall i :: 0 <= i < |b| ==> !HasKey(a, b[i].0)
    ensures Merge(a, b) == a + b
    decreases |b|
  {
    if |b| > 0 {
      MergeStep(a, b);
      FreshRest(a, b);
      MergeFresh(a + [b[0]], b[1..]);
      Regroup(a, b);
    }
  }
}
