/**
 * An insertion-ordered dictionary with string keys, as a JavaScript `Map`:
 * `set` on a new key appends it, `set` on a present key replaces the value
 * in place, and `values()` lists the values in key order.
 */
module OrderedMaps {
  import opened Wrappers

  datatype OrderedMap<V> = OrderedMap(keys: seq<string>, entries: map<string, V>) {
    /** The keys in order are exactly the keys of the entries. */
    predicate Valid() {
      && (forall k :: k in entries ==> k in keys)
      && (forall i :: 0 <= i < |keys| ==> keys[i] in entries)
    }
  }

  /** No key is listed twice. */
  predicate Distinct(keys: seq<string>) {
    forall i, j :: 0 <= i < j < |keys| ==> keys[i] != keys[j]
  }

  /** The ordered maps a `Map` object can be in. */
  type ValidMap<V> = m: OrderedMap<V> | m.Valid() witness OrderedMap([], map[])

  function Empty<V>(): (m: OrderedMap<V>)
    ensures m.Valid() && m.keys == [] && Distinct(m.keys)
  {
    OrderedMap([], map[])
  }

  /** `map.get(key)`. */
  function Get<V>(m: OrderedMap<V>, key: string): (r: Option<V>)
    ensures r.Some? <==> key in m.entries
    ensures r.Some? ==> r.value == m.entries[key]
  {
    if key in m.entries then Some(m.entries[key]) else None
  }

  /** `map.set(key, value)`. */
  function Set<V>(m: OrderedMap<V>, key: string, value: V): (r: OrderedMap<V>)
    requires m.Valid()
    ensures r.Valid()
    ensures r.entries == m.entries[key := value]
    ensures key in m.entries ==> r.keys == m.keys
    ensures key !in m.entries ==> r.keys == m.keys + [key]
  {
    if key in m.entries then OrderedMap(m.keys, m.entries[key := value])
    else OrderedMap(m.keys + [key], m.entries[key := value])
  }

  /** `set` never lists a key twice: a new key is appended, a present one stays where it is. */
  lemma SetKeepsKeysDistinct<V>(m: OrderedMap<V>, key: string, value: V)
    requires m.Valid() && Distinct(m.keys)
    ensures Distinct(Set(m, key, value).keys)
  {
  }

  /** The values stored under `keys`, in that order. */
  function ValuesOf<V>(keys: seq<string>, entries: map<string, V>): (vs: seq<V>)
    requires forall k :: k in keys ==> k in entries
    ensures |vs| == |keys|
    ensures forall i :: 0 <= i < |keys| ==> vs[i] == entries[keys[i]]
  {
    if keys == [] then []
    else ValuesOf(keys[..|keys| - 1], entries) + [entries[keys[|keys| - 1]]]
  }

  /** `Array.from(map.values())`. */
  function Values<V>(m: OrderedMap<V>): (vs: seq<V>)
    requires m.Valid()
    ensures |vs| == |m.keys|
    ensures forall i :: 0 <= i < |vs| ==> vs[i] == m.entries[m.keys[i]]
  {
    ValuesOf(m.keys, m.entries)
  }

  /** Setting a new key appends its value at the end of the values. */
  lemma ValuesAfterSetNew<V>(m: OrderedMap<V>, key: string, value: V)
    requires m.Valid() && key !in m.entries
    ensures Values(Set(m, key, value)) == Values(m) + [value]
  {
    var r := Set(m, key, value);
    assert r.keys == m.keys + [key];
    var a, b := Values(r), Values(m) + [value];
    assert |a| == |b|;
    forall i | 0 <= i < |a| ensures a[i] == b[i] {
      if i < |m.keys| {
        assert r.keys[i] == m.keys[i] && m.keys[i] != key;
      }
    }
  }

  /** A `Map` filled with one entry holds just that entry. */
  lemma SetOnEmpty<V>(key: string, value: V)
    ensures Set(Empty(), key, value).keys == [key]
    ensures Values(Set(Empty(), key, value)) == [value]
  {
    ValuesAfterSetNew(Empty(), key, value);
  }

  /** A `Map` filled with two entries under different keys holds them in insertion order. */
  lemma SetTwiceOnEmpty<V>(k1: string, v1: V, k2: string, v2: V)
    requires k1 != k2
    ensures Set(Set(Empty(), k1, v1), k2, v2).keys == [k1, k2]
    ensures Values(Set(Set(Empty(), k1, v1), k2, v2)) == [v1, v2]
  {
    SetOnEmpty(k1, v1);
    ValuesAfterSetNew(Set(Empty(), k1, v1), k2, v2);
  }

  /** Setting a new key adds its value to the stored values and removes none. */
  lemma ValueSetAfterSetNew<V>(m: OrderedMap<V>, key: string, value: V)
    requires m.Valid() && key !in m.entries
    ensures Set(m, key, value).entries.Values == m.entries.Values + {value}
  {
    var r := Set(m, key, value);
    forall v | v in r.entries.Values ensures v in m.entries.Values + {value} {
      var k :| k in r.entries && r.entries[k] == v;
      if k != key {
        assert m.entries[k] == v;
      }
    }
    forall v | v in m.entries.Values + {value} ensures v in r.entries.Values {
      if v != value {
        var k :| k in m.entries && m.entries[k] == v;
        assert r.entries[k] == v;
      } else {
        assert r.entries[key] == value;
      }
    }
  }

  /** Setting a present key replaces its value where it stands. */
  lemma ValuesAfterSetExisting<V>(m: OrderedMap<V>, key: string, value: V, i: nat)
    requires m.Valid() && Distinct(m.keys) && i < |m.keys| && m.keys[i] == key
    ensures Values(Set(m, key, value)) == Values(m)[i := value]
  {
    var r := Set(m, key, value);
    var a, b := Values(r), Values(m)[i := value];
    assert |a| == |b|;
    forall j | 0 <= j < |a| ensures a[j] == b[j] {
      if j != i {
        assert m.keys[j] != key;
      }
    }
  }

  /** Setting the same key to the same value twice has the effect of setting it once. */
  lemma SetIdempotent<V>(m: OrderedMap<V>, key: string, value: V)
    requires m.Valid()
    ensures Set(Set(m, key, value), key, value) == Set(m, key, value)
  {
  }

  /** Setting a key to the value it already holds changes nothing. */
  lemma SetUnchanged<V>(m: OrderedMap<V>, key: string, value: V)
    requires m.Valid() && key in m.entries && m.entries[key] == value
    ensures Set(m, key, value) == m
  {
    assert m.entries[key := value] == m.entries;
  }
}
