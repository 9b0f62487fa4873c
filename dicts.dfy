/**
  Python's `dict`: a finite map that also remembers the order in which its keys
  were first inserted (iteration follows that order; assigning to an existing
  key keeps its position).
*/
module Dicts {
  import opened Wrappers

  datatype PyDict<K(==, !new), V> = PyDict(keys: seq<K>, entries: map<K, V>) {

    /** Every key is listed exactly once, and the listed keys are the map's keys. */
    ghost predicate Valid() {
      && (forall i, j :: 0 <= i < j < |keys| ==> keys[i] != keys[j])
      && (forall k :: k in entries <==> k in keys)
    }
  }

  /** Every value of type Dict is a well-formed insertion-ordered map. */
  type Dict<K(==, !new), V> = d: PyDict<K, V> | d.Valid() witness PyDict([], map[])

  function Empty<K(==, !new), V>(): (d: Dict<K, V>)
    ensures d.keys == [] && d.entries == map[]
  {
    PyDict([], map[])
  }

  /** `d.get(k)`. */
  function Get<K(==, !new), V>(d: Dict<K, V>, k: K): (r: Option<V>)
    ensures r.Some? <==> k in d.entries
    ensures r.Some? ==> r.value == d.entries[k]
  {
    if k in d.entries then Some(d.entries[k]) else None
  }

  /** `d[k] = v`: a new key goes to the end, an existing key keeps its place. */
  function Put<K(==, !new), V>(d: Dict<K, V>, k: K, v: V): (r: Dict<K, V>)
    ensures r.entries == d.entries[k := v]
    ensures k in d.entries ==> r.keys == d.keys
    ensures k !in d.entries ==> r.keys == d.keys + [k]
  {
    if k in d.entries then PyDict(d.keys, d.entries[k := v])
    else
      var r := PyDict(d.keys + [k], d.entries[k := v]);
      assert forall i :: 0 <= i < |d.keys| ==> d.keys[i] in d.entries;
      r
  }

  /** `list(d.values())`: the values in key order. */
  function Values<K(==, !new), V>(d: Dict<K, V>): (r: seq<V>)
    ensures |r| == |d.keys|
    ensures forall i :: 0 <= i < |r| ==> r[i] == d.entries[d.keys[i]]
  {
    seq(|d.keys|, i requires 0 <= i < |d.keys| => d.entries[d.keys[i]])
  }

  /** `m[outer][inner] = v` after creating `m[outer] = {}` when it is missing. */
  function PutNested<K(==, !new), L(==, !new), V>(m: map<K, map<L, V>>, outer: K, inner: L, v: V): (r: map<K, map<L, V>>)
    ensures outer in r && inner in r[outer] && r[outer][inner] == v
    ensures forall k :: k in r <==> k in m || k == outer
    ensures forall k, l :: (k != outer || l != inner) ==> ((k in r && l in r[k]) <==> (k in m && l in m[k]))
    ensures forall k, l :: k in r && l in r[k] && (k != outer || l != inner) ==> r[k][l] == m[k][l]
  {
    var inners := if outer in m then m[outer] else map[];
    m[outer := inners[inner := v]]
  }
}
