/**
 * A JavaScript `Map`: a finite map whose keys also remember their insertion order, which is the
 * order `forEach` visits them in. Setting an existing key keeps its place; deleting removes it.
 */
module JsMap {
  import opened Wrappers

  /** No key occurs twice. */
  ghost predicate Distinct<K(!new)>(s: seq<K>) {
    forall i, j :: 0 <= i < j < |s| ==> s[i] != s[j]
  }

  /** `s` with every occurrence of `k` removed, the rest in order. */
  function Without<K(==,!new)>(s: seq<K>, k: K): (r: seq<K>)
    ensures forall x :: x in r <==> x in s && x != k
    ensures |r| <= |s|
  {
    if s == [] then []
    else if s[0] == k then Without(s[1..], k)
    else [s[0]] + Without(s[1..], k)
  }

  /** Removing a key keeps an order duplicate-free. */
  lemma {:induction false} WithoutDistinct<K(!new)>(s: seq<K>, k: K)
    requires Distinct(s)
    ensures Distinct(Without(s, k))
  {
    if s != [] {
      DistinctHead(s);
      WithoutDistinct(s[1..], k);
    }
  }

  /** Removing a key that is absent leaves the order as it was. */
  lemma {:induction false} WithoutAbsent<K(!new)>(s: seq<K>, k: K)
    requires k !in s
    ensures Without(s, k) == s
  {
    if s != [] {
      WithoutAbsent(s[1..], k);
    }
  }

  /** The first key of a duplicate-free order does not occur again. */
  lemma DistinctHead<K(!new)>(s: seq<K>)
    requires s != [] && Distinct(s)
    ensures s[0] !in s[1..] && Distinct(s[1..])
  {
    forall j | 0 <= j < |s| - 1
      ensures s[1..][j] != s[0]
    {
      assert s[1..][j] == s[j + 1];
    }
  }

  /** Removing a key appended to an order that lacked it gives the order back. */
  lemma {:induction false} WithoutLast<K(!new)>(s: seq<K>, k: K)
    requires k !in s
    ensures Without(s + [k], k) == s
  {
    if s == [] {
      assert [k][1..] == [];
    } else {
      assert (s + [k])[1..] == s[1..] + [k];
      WithoutLast(s[1..], k);
    }
  }

  /** Removing the first key of a duplicate-free order drops exactly that position. */
  lemma WithoutHead<K(!new)>(s: seq<K>)
    requires s != [] && Distinct(s)
    ensures Without(s, s[0]) == s[1..]
  {
    DistinctHead(s);
    WithoutAbsent(s[1..], s[0]);
  }

  datatype OrderedMap<K(==,!new), V> = OrderedMap(keys: seq<K>, values: map<K, V>) {

    /** The order lists every key of the map exactly once. */
    ghost predicate Valid() {
      Distinct(keys) && forall k :: k in values <==> k in keys
    }

    /** `map.has(k)`. */
    predicate Has(k: K) {
      k in values
    }

    /** `map.get(k)`: `undefined` (None) exactly when the key is absent. */
    function Get(k: K): (r: Option<V>)
      ensures r.Some? <==> Has(k)
      ensures r.Some? ==> r.value == values[k]
    {
      if k in values then Some(values[k]) else None
    }

    /** The values in insertion order: what `forEach` visits. */
    function Values(): (vs: seq<V>)
      requires Valid()
      ensures |vs| == |keys|
      ensures forall i :: 0 <= i < |keys| ==> vs[i] == values[keys[i]]
    {
      seq(|keys|, i requires 0 <= i < |keys| => values[keys[i]])
    }

    /** `map.set(k, v)`: a new key goes last, an existing one keeps its place. */
    function Set(k: K, v: V): (m: OrderedMap<K, V>)
      requires Valid()
      ensures m.Valid()
      ensures m.values == values[k := v]
      ensures m.keys == if Has(k) then keys else keys + [k]
    {
      OrderedMap(if k in values then keys else keys + [k], values[k := v])
    }

    /** `map.delete(k)`. */
    function Delete(k: K): (m: OrderedMap<K, V>)
      requires Valid()
      ensures m.Valid()
      ensures m.values == values - {k}
      ensures m.keys == Without(keys, k)
    {
      WithoutDistinct(keys, k);
      OrderedMap(Without(keys, k), values - {k})
    }
  }

  /** `new Map()`, and what `map.clear()` leaves. */
  function Empty<K(!new), V>(): (m: OrderedMap<K, V>)
    ensures m.Valid() && m.keys == [] && m.values == map[]
  {
    OrderedMap([], map[])
  }

  /** A read after a write sees the written value; other keys are unaffected. */
  lemma SetThenGet<K(!new), V>(m: OrderedMap<K, V>, k: K, v: V, other: K)
    requires m.Valid() && other != k
    ensures m.Set(k, v).Get(k) == Some(v)
    ensures m.Set(k, v).Get(other) == m.Get(other)
  {
  }

  /** Adding a new key and deleting it again leaves the map, order included, as it was. */
  lemma SetThenDeleteFresh<K(!new), V>(m: OrderedMap<K, V>, k: K, v: V)
    requires m.Valid() && !m.Has(k)
    ensures m.Set(k, v).Delete(k) == m
  {
    WithoutLast(m.keys, k);
    assert m.values[k := v] - {k} == m.values;
  }

  /** After a delete the key is absent, and deleting it again changes nothing. */
  lemma DeleteTwice<K(!new), V>(m: OrderedMap<K, V>, k: K)
    requires m.Valid()
    ensures !m.Delete(k).Has(k)
    ensures m.Delete(k).Delete(k) == m.Delete(k)
  {
    WithoutAbsent(m.Delete(k).keys, k);
  }
}
