/**
 * Python's `dict` where its insertion order matters: a sequence of
 * key/value entries with distinct keys. Assigning to a new key appends an
 * entry; assigning to an existing key replaces the value in place, keeping
 * the key's position; `d.update(e)` and `d | e` assign `e`'s entries in
 * order.
 */
module PyDict {
  import opened PyTypes

  type Dict<K, V> = seq<(K, V)>

  /** No key occurs in two entries: what every Python dict satisfies. */
  ghost predicate UniqueKeys<K, V>(d: Dict<K, V>)
  {
    forall i, j :: 0 <= i < |d| && 0 <= j < |d| && i != j ==> d[i].0 != d[j].0
  }

  /** `list(d.keys())` */
  function Keys<K, V>(d: Dict<K, V>): (ks: seq<K>)
    ensures |ks| == |d| && forall i :: 0 <= i < |d| ==> ks[i] == d[i].0
  {
    seq(|d|, i requires 0 <= i < |d| => d[i].0)
  }

  /** The position of key `k`, or -1 when `k` is not a key. */
  function IndexOf<K(==), V>(d: Dict<K, V>, k: K): (r: int)
    ensures -1 <= r < |d|
    ensures r >= 0 ==> d[r].0 == k && forall j :: 0 <= j < r ==> d[j].0 != k
    ensures r == -1 <==> k !in Keys(d)
    decreases |d|
  {
    if d == [] then -1
    else if d[0].0 == k then 0
    else var r := IndexOf(d[1..], k); if r == -1 then -1 else r + 1
  }

  /** `d.get(k)` */
  function Get<K(==), V>(d: Dict<K, V>, k: K): (r: Option<V>)
    ensures r.Some? <==> k in Keys(d)
    ensures UniqueKeys(d) ==> forall i :: 0 <= i < |d| && d[i].0 == k ==> r == Some(d[i].1)
  {
    var i := IndexOf(d, k);
    if i < 0 then None else Some(d[i].1)
  }

  /** `d[k] = v` */
  function Set<K(==), V>(d: Dict<K, V>, k: K, v: V): (r: Dict<K, V>)
    ensures Keys(r) == if k in Keys(d) then Keys(d) else Keys(d) + [k]
    ensures UniqueKeys(d) ==> UniqueKeys(r)
  {
    var i := IndexOf(d, k);
    if i >= 0 then d[i := (k, v)] else d + [(k, v)]
  }

  /** After `d[k] = v`, `k` maps to `v` and every other key keeps its value. */
  lemma GetSet<K, V>(d: Dict<K, V>, k: K, v: V, k': K)
    requires UniqueKeys(d)
    ensures Get(Set(d, k, v), k') == if k' == k then Some(v) else Get(d, k')
  {
  }

  /** `for k, v in e: d[k] = v`, i.e. `d.update(e)`; also `d | e`. */
  function UpdateAll<K(==), V>(d: Dict<K, V>, e: seq<(K, V)>): Dict<K, V>
    decreases |e|
  {
    if e == [] then d else UpdateAll(Set(d, e[0].0, e[0].1), e[1..])
  }

  /** The value of the last entry of `e` with key `k`: the one a sequence of assignments leaves. */
  function LastValue<K(==), V>(e: seq<(K, V)>, k: K): (r: Option<V>)
    decreases |e|
  {
    if e == [] then None
    else if e[|e| - 1].0 == k then Some(e[|e| - 1].1)
    else LastValue(e[..|e| - 1], k)
  }

  lemma {:induction false} LastValueFront<K, V>(e: seq<(K, V)>, k: K)
    requires e != []
    ensures LastValue(e, k) == if LastValue(e[1..], k).Some? then LastValue(e[1..], k)
                               else if e[0].0 == k then Some(e[0].1) else None
    decreases |e|
  {
    if |e| > 1 && e[|e| - 1].0 != k {
      LastValueFront(e[..|e| - 1], k);
      assert e[..|e| - 1][1..] == e[1..][..|e[1..]| - 1];
    }
  }

  /** `LastValue` finds a value exactly for the keys that occur. */
  lemma {:induction false} LastValueSome<K, V>(e: seq<(K, V)>, k: K)
    ensures LastValue(e, k).Some? <==> k in Keys(e)
    decreases |e|
  {
    if e != [] && e[|e| - 1].0 != k {
      LastValueSome(e[..|e| - 1], k);
      assert Keys(e) == Keys(e[..|e| - 1]) + [e[|e| - 1].0];
    }
  }

  /**
   * After `d.update(e)` a key maps to the value of its last entry in `e`,
   * and a key absent from `e` keeps its value in `d` (or stays absent).
   */
  lemma {:induction false} GetUpdateAll<K, V>(d: Dict<K, V>, e: seq<(K, V)>, k: K)
    requires UniqueKeys(d)
    ensures UniqueKeys(UpdateAll(d, e))
    ensures Get(UpdateAll(d, e), k) == if LastValue(e, k).Some? then LastValue(e, k) else Get(d, k)
    decreases |e|
  {
    if e != [] {
      GetUpdateAll(Set(d, e[0].0, e[0].1), e[1..], k);
      LastValueFront(e, k);
      GetSet(d, e[0].0, e[0].1, k);
    }
  }

  /** `d.update(e)` keeps `d`'s keys in their order and adds `e`'s keys after them. */
  lemma {:induction false} KeysUpdateAll<K, V>(d: Dict<K, V>, e: seq<(K, V)>)
    ensures Keys(d) <= Keys(UpdateAll(d, e))
    ensures forall k :: k in Keys(UpdateAll(d, e)) <==> k in Keys(d) || k in Keys(e)
    decreases |e|
  {
    if e != [] {
      var d' := Set(d, e[0].0, e[0].1);
      KeysUpdateAll(d', e[1..]);
      assert Keys(e) == [e[0].0] + Keys(e[1..]);
    }
  }

  /** In a dict the last entry for a key is its only entry, so `LastValue` is `get`. */
  lemma {:induction false} LastValueUnique<K, V>(d: Dict<K, V>, k: K)
    requires UniqueKeys(d)
    ensures LastValue(d, k) == Get(d, k)
    decreases |d|
  {
    if d != [] && d[|d| - 1].0 != k {
      var init := d[..|d| - 1];
      assert forall i :: 0 <= i < |init| ==> init[i] == d[i];
      LastValueUnique(init, k);
      assert Keys(d) == Keys(init) + [d[|d| - 1].0];
    }
  }

  /** Uniqueness is a property of the key list alone. */
  lemma UniqueKeysOfKeys<K, V, W>(d: Dict<K, V>, e: Dict<K, W>)
    requires Keys(d) == Keys(e) && UniqueKeys(e)
    ensures UniqueKeys(d)
  {
    forall i, j | 0 <= i < |d| && 0 <= j < |d| && i != j
      ensures d[i].0 != d[j].0
    {
      assert Keys(d)[i] == e[i].0 && Keys(d)[j] == e[j].0;
    }
  }
}
