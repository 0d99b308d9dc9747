/** A JavaScript `Map`: iteration follows first insertion, and `set` on a present key keeps
    that key's position. */
module InsertionMap {
  import opened Common

  datatype IMap<K(==, !new), V> = IMap(keys: seq<K>, values: map<K, V>)
  {
    /** The keys listed once each, and exactly the keys of the association. */
    ghost predicate Valid()
    {
      && Distinct(keys)
      && (forall k :: k in values <==> k in keys)
    }

    /** `map.get(k) || default` for a value type whose stored values are never falsy. */
    function GetOr(k: K, default: V): V
    {
      if k in values then values[k] else default
    }

    /** `map.set(k, v)`. */
    function Put(k: K, v: V): (r: IMap<K, V>)
      requires Valid()
      ensures r.Valid()
      ensures r.values == values[k := v]
      ensures k in values ==> r.keys == keys
      ensures k !in values ==> r.keys == keys + [k]
    {
      IMap(if k in values then keys else keys + [k], values[k := v])
    }
  }

  /** Setting a key twice leaves the second value, in the key's first position. */
  lemma PutPut<K(!new), V>(m: IMap<K, V>, k: K, v: V, w: V)
    requires m.Valid()
    ensures m.Put(k, v).Put(k, w) == m.Put(k, w)
  {
    assert m.values[k := v][k := w] == m.values[k := w];
  }

  function Empty<K(==, !new), V>(): (r: IMap<K, V>)
    ensures r.Valid() && r.keys == [] && r.values == map[]
  {
    IMap([], map[])
  }

  /** A list without repetitions has as many elements as the set of its elements. */
  lemma {:induction false} DistinctCard<K>(s: seq<K>)
    requires Distinct(s)
    ensures |set x | x in s| == |s|
  {
    if s != [] {
      var n := |s| - 1;
      DistinctCard(s[..n]);
      assert (set x | x in s) == (set x | x in s[..n]) + {s[n]};
      assert s[n] !in (set x | x in s[..n]);
    }
  }

  /** `map.size`: the number of keys, which is the length of the key list. */
  lemma SizeIsKeyCount<K(!new), V>(m: IMap<K, V>)
    requires m.Valid()
    ensures |m.values| == |m.keys|
  {
    DistinctCard(m.keys);
    assert m.values.Keys == set x | x in m.keys;
  }
}
