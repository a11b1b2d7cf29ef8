/**
 * A JavaScript `Map`: a finite map that also remembers the order in which its keys were
 * first inserted. `set` on a present key replaces the value in place; `delete` removes the
 * key and leaves the order of the others alone.
 */
module OrderedMap {
  import opened Wrappers
  import opened Seqs

  /** The keys of `s` that are not in `r`, in their original order. */
  function KeysWithout<K(==, !new)>(s: seq<K>, r: set<K>): (t: seq<K>)
    ensures forall x :: x in t <==> x in s && x !in r
    ensures |t| <= |s|
    ensures Distinct(s) ==> Distinct(t)
    ensures (forall k :: 0 <= k < |s| ==> s[k] !in r) ==> t == s
  {
    if s == [] then []
    else
      var rest := KeysWithout(s[1..], r);
      assert forall x :: x in s <==> x == s[0] || x in s[1..];
      if s[0] in r then rest else [s[0]] + rest
  }

  /** The keys that survive keep their original order. */
  lemma {:induction false} KeysWithoutOrder<K(!new)>(s: seq<K>, r: set<K>)
    ensures IsSubsequence(KeysWithout(s, r), s)
  {
    if s != [] {
      KeysWithoutOrder(s[1..], r);
      var rest := KeysWithout(s[1..], r);
      if s[0] !in r {
        assert ([s[0]] + rest)[1..] == rest;
      }
    }
  }

  /** No key appears twice. */
  ghost predicate Distinct<K>(s: seq<K>) {
    forall i, j :: 0 <= i < j < |s| ==> s[i] != s[j]
  }

  /** Removing `r` and then `u` is removing `r + u` at once. */
  lemma {:induction false} KeysWithoutTwice<K(!new)>(s: seq<K>, r: set<K>, u: set<K>)
    ensures KeysWithout(KeysWithout(s, r), u) == KeysWithout(s, r + u)
  {
    if s != [] {
      KeysWithoutTwice(s[1..], r, u);
      if s[0] !in r {
        assert ([s[0]] + KeysWithout(s[1..], r))[1..] == KeysWithout(s[1..], r);
      }
    }
  }

  datatype JsMap<K(==, !new), V> = JsMap(keys: seq<K>, entries: map<K, V>) {

    /** The order list names each key of the map exactly once. */
    ghost predicate Valid() {
      Distinct(keys) && forall x :: x in keys <==> x in entries
    }

    /** `map.has(k)`. */
    predicate Has(k: K) {
      k in entries
    }

    /** `map.get(k)`, `None` standing for `undefined`. */
    function Get(k: K): (r: Option<V>)
      ensures r.Some? <==> Has(k)
      ensures r.Some? ==> r.value == entries[k]
    {
      if k in entries then Some(entries[k]) else None
    }

    /** `map.set(k, v)`: a new key goes last, a present key keeps its place. */
    function Set(k: K, v: V): (m: JsMap<K, V>)
      ensures m.entries == entries[k := v]
      ensures k in keys ==> m.keys == keys
      ensures k !in keys ==> m.keys == keys + [k]
      ensures Valid() ==> m.Valid()
    {
      if k in keys then JsMap(keys, entries[k := v]) else JsMap(keys + [k], entries[k := v])
    }

    /** The map with every key of `r` deleted. */
    function Without(r: set<K>): (m: JsMap<K, V>)
      ensures m.entries == entries - r
      ensures forall x :: x in m.keys <==> x in keys && x !in r
      ensures Valid() ==> m.Valid()
    {
      JsMap(KeysWithout(keys, r), entries - r)
    }

    /** `map.delete(k)`. */
    function Delete(k: K): (m: JsMap<K, V>)
      ensures m.entries == entries - {k}
      ensures k !in entries && Valid() ==> m == this
      ensures Valid() ==> m.Valid()
    {
      Without({k})
    }
  }

  /** `new Map()`. */
  function Empty<K(==, !new), V>(): (m: JsMap<K, V>)
    ensures m.Valid() && m.keys == [] && m.entries == map[]
  {
    JsMap([], map[])
  }

  /** Deleting keys one at a time accumulates into one bulk deletion. */
  lemma WithoutTwice<K(!new), V>(m: JsMap<K, V>, r: set<K>, u: set<K>)
    ensures m.Without(r).Without(u) == m.Without(r + u)
  {
    KeysWithoutTwice(m.keys, r, u);
    assert m.entries - r - u == m.entries - (r + u);
  }
}
