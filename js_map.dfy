/**
 * A JavaScript `Map`: a dictionary that remembers the order in which its keys
 * were first inserted. `set` on a key already present replaces the value but
 * keeps the key's position; `values()` and `forEach` visit entries in that
 * order; `clear` empties it; `size` is the number of keys.
 */
module JsMap {

  datatype OrderedMap<K(==), V(==)> = OrderedMap(keys: seq<K>, entries: map<K, V>) {

    /** Every key occurs once in `keys`, and `keys` lists exactly the keys of `entries`. */
    ghost predicate Valid() {
      && (forall i, j :: 0 <= i < j < |keys| ==> keys[i] != keys[j])
      && (forall i :: 0 <= i < |keys| ==> keys[i] in entries)
      && (forall k | k in entries :: k in keys)
    }

    /** `map.size` */
    function Size(): nat {
      |keys|
    }

    /** `map.set(k, v)` */
    function Set(k: K, v: V): (r: OrderedMap<K, V>)
      requires Valid()
      ensures r.Valid()
      ensures k in r.entries && r.entries[k] == v
      ensures r.entries.Keys == entries.Keys + {k}
      ensures forall k' | k' in entries && k' != k :: r.entries[k'] == entries[k']
      ensures |keys| <= |r.keys| && r.keys[..|keys|] == keys
      ensures r.Size() == if k in entries then Size() else Size() + 1
    {
      if k in entries then OrderedMap(keys, entries[k := v])
      else OrderedMap(keys + [k], entries[k := v])
    }

    /** `Array.from(map.values())` */
    function Values(): (r: seq<V>)
      requires Valid()
      ensures |r| == Size()
      ensures forall i :: 0 <= i < |r| ==> r[i] == entries[keys[i]]
      ensures forall v | v in r :: v in entries.Values
      ensures forall v | v in entries.Values :: v in r
    {
      seq(|keys|, i requires 0 <= i < |keys| => entries[keys[i]])
    }

    /** `Array.from(map.values())[0]` on a non-empty map: the value of the oldest key. */
    function First(): (v: V)
      requires Valid() && Size() > 0
      ensures v == Values()[0]
    {
      entries[keys[0]]
    }
  }

  /** `new Map()`, and what `map.clear()` leaves behind. */
  function Empty<K(==), V(==)>(): (r: OrderedMap<K, V>)
    ensures r.Valid() && r.Size() == 0 && r.entries == map[]
  {
    OrderedMap([], map[])
  }

  /** `size` counts the keys of the dictionary. */
  lemma {:induction false} SizeIsCount<K, V>(m: OrderedMap<K, V>)
    requires m.Valid()
    ensures m.Size() == |m.entries|
  {
    DistinctCount(m.keys);
    assert m.entries.Keys == set k | k in m.keys;
  }

  lemma {:induction false} DistinctCount<K>(s: seq<K>)
    requires forall i, j :: 0 <= i < j < |s| ==> s[i] != s[j]
    ensures |set k | k in s| == |s|
  {
    if s != [] {
      var rest := s[1..];
      DistinctCount(rest);
      assert (set k | k in s) == (set k | k in rest) + {s[0]};
      assert s[0] !in rest;
    }
  }

  /** Setting a key never moves the entries already there; the oldest value
      changes only when the oldest key itself is set. */
  lemma SetKeepsFirst<K, V>(m: OrderedMap<K, V>, k: K, v: V)
    requires m.Valid() && m.Size() > 0
    ensures m.Set(k, v).First() == if m.keys[0] == k then v else m.First()
  {
  }
}
