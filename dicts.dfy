/** Python's insertion-ordered `dict`, and the namespace a `class` body
    builds from its definitions. */
module Dicts {

  /** A dict: its keys in insertion order and the key-value mapping. */
  datatype Dict<K(==), V> = Dict(keys: seq<K>, items: map<K, V>) {
    ghost predicate Valid() {
      && (forall i, j :: 0 <= i < j < |keys| ==> keys[i] != keys[j])
      && items.Keys == set x | x in keys
    }
  }

  /** No element occurs twice. */
  ghost predicate NoRepeat<T>(s: seq<T>)
  {
    forall i, j :: 0 <= i < j < |s| ==> s[i] != s[j]
  }

  function Empty<K(==), V>(): (d: Dict<K, V>)
    ensures d.Valid() && d.keys == [] && d.items == map[]
  {
    Dict([], map[])
  }

  /** `d[k] = v`: a new key goes to the end, an existing key keeps its place. */
  function Put<K(==), V>(d: Dict<K, V>, k: K, v: V): (r: Dict<K, V>)
    requires d.Valid()
    ensures r.Valid()
    ensures r.items == d.items[k := v]
    ensures r.keys == if k in d.items then d.keys else d.keys + [k]
  {
    Dict(if k in d.items then d.keys else d.keys + [k], d.items[k := v])
  }

  /** `s` without the element `k`, order kept. */
  function Without<K(==)>(s: seq<K>, k: K): (r: seq<K>)
    ensures (set x | x in r) == (set x | x in s) - {k}
    ensures (forall i, j :: 0 <= i < j < |s| ==> s[i] != s[j]) ==>
              forall i, j :: 0 <= i < j < |r| ==> r[i] != r[j]
  {
    if |s| == 0 then []
    else
      var rest := Without(s[1..], k);
      assert (set x | x in s) == {s[0]} + (set x | x in s[1..]);
      if s[0] == k then rest
      else
        assert s[0] in rest ==> s[0] in (set x | x in rest);
        assert (set x | x in [s[0]] + rest) == {s[0]} + (set x | x in rest);
        [s[0]] + rest
  }

  /** A key does not occur before its own position. */
  lemma KeyNotBefore<K, V>(d: Dict<K, V>, i: int)
    requires d.Valid() && 0 <= i < |d.keys|
    ensures d.keys[i] !in d.keys[..i]
  {
    assert forall j :: 0 <= j < i ==> d.keys[..i][j] == d.keys[j];
  }

  /** `del d[k]` when `k` is present. */
  function Remove<K(==), V>(d: Dict<K, V>, k: K): (r: Dict<K, V>)
    requires d.Valid()
    ensures r.Valid()
    ensures r.items == d.items - {k}
  {
    Dict(Without(d.keys, k), d.items - {k})
  }

  /** The values in key order, as `d.values()` yields them. */
  function Values<K(==), V>(d: Dict<K, V>): (r: seq<V>)
    requires d.Valid()
    ensures |r| == |d.keys|
    ensures forall i :: 0 <= i < |r| ==> r[i] == d.items[d.keys[i]]
  {
    seq(|d.keys|, i requires 0 <= i < |d.keys| => d.items[d.keys[i]])
  }

  /** The namespace of a class body: each definition binds its name, a later
      definition of the same name replaces the earlier one's value but keeps
      its position. */
  function Namespace<A>(defs: seq<(string, A)>): (r: Dict<string, A>)
    ensures r.Valid()
    ensures forall n :: n in r.items <==> exists i :: 0 <= i < |defs| && defs[i].0 == n
    decreases |defs|
  {
    if |defs| == 0 then Empty()
    else
      var r := Put(Namespace(defs[..|defs| - 1]), defs[|defs| - 1].0, defs[|defs| - 1].1);
      assert forall i :: 0 <= i < |defs| - 1 ==> defs[..|defs| - 1][i] == defs[i];
      r
  }

  /** The entries of a namespace in order, as `kwargs.items()` yields them. */
  function Items<A>(d: Dict<string, A>): (r: seq<(string, A)>)
    requires d.Valid()
    ensures |r| == |d.keys|
    ensures forall i :: 0 <= i < |r| ==> r[i] == (d.keys[i], d.items[d.keys[i]])
  {
    seq(|d.keys|, i requires 0 <= i < |d.keys| => (d.keys[i], d.items[d.keys[i]]))
  }
}
