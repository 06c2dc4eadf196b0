/** Python dictionaries whose iteration order matters to the modelled code:
    the keys in insertion order next to the key-to-value map. Assigning to a
    key already present keeps its position; a new key goes to the end; `pop`
    removes the key from the order. */
module Dicts {

  import opened Wrappers

  /** Python's `Dict[str, str]`, as used for vocabulary entries and dialogue
      lines. */
  type StrDict = map<string, string>

  /** `d.get(key, default)` on a `Dict[str, str]`. */
  function GetStr(d: StrDict, key: string, default: string): (r: string)
    ensures key in d ==> r == d[key]
    ensures key !in d ==> r == default
  {
    if key in d then d[key] else default
  }

  predicate Distinct<K(==,!new)>(s: seq<K>) {
    forall i, j :: 0 <= i < |s| && 0 <= j < |s| && s[i] == s[j] ==> i == j
  }

  /** `s` without any occurrence of `k`, the other elements in order. */
  function Without<K(==,!new)>(s: seq<K>, k: K): (r: seq<K>)
    ensures forall x :: x in r <==> x in s && x != k
    ensures Distinct(s) ==> Distinct(r)
    ensures |r| <= |s|
  {
    if |s| == 0 then []
    else if s[0] == k then Without(s[1..], k)
    else
      var rest := Without(s[1..], k);
      assert Distinct(s) ==> s[0] !in s[1..];
      [s[0]] + rest
  }

  datatype Dict<K(==,!new), V> = Dict(keys: seq<K>, vals: map<K, V>) {

    /** Every key appears once in the order, and the order lists exactly the
        keys of the map. */
    ghost predicate Valid() {
      Distinct(keys) && (forall k :: k in keys <==> k in vals)
    }

    predicate Has(k: K) {
      k in vals
    }

    /** `d.get(k)`. */
    function Get(k: K): (r: Option<V>)
      ensures r.Some? <==> k in vals
      ensures r.Some? ==> r.value == vals[k]
    {
      if k in vals then Some(vals[k]) else None
    }

    /** `d[k] = v`. */
    function Put(k: K, v: V): (d: Dict<K, V>)
      ensures Valid() ==> d.Valid()
      ensures d.vals == vals[k := v]
      ensures k in vals ==> d.keys == keys
      ensures k !in vals ==> d.keys == keys + [k]
    {
      if k in vals then Dict(keys, vals[k := v]) else Dict(keys + [k], vals[k := v])
    }

    /** `d.pop(k, None)`: the dictionary without `k`. */
    function Pop(k: K): (d: Dict<K, V>)
      ensures Valid() ==> d.Valid()
      ensures d.vals == vals - {k}
      ensures d.keys == Without(keys, k)
    {
      Dict(Without(keys, k), vals - {k})
    }

    /** `list(d.values())`: the values in key order. */
    function Values(): (r: seq<V>)
      requires Valid()
      ensures |r| == |keys|
      ensures forall i :: 0 <= i < |keys| ==> r[i] == vals[keys[i]]
    {
      seq(|keys|, i requires 0 <= i < |keys| && Valid() => vals[keys[i]])
    }
  }

  function Empty<K(==,!new), V>(): (d: Dict<K, V>)
    ensures d.Valid() && d.keys == [] && d.vals == map[]
  {
    Dict([], map[])
  }

  /** A well-formed dictionary has an empty order exactly when it has no
      keys. */
  lemma EmptyOrder<K(!new), V>(d: Dict<K, V>)
    requires d.Valid()
    ensures d.keys == [] <==> d.vals == map[]
  {
    if d.keys != [] {
      assert d.keys[0] in d.vals;
    }
  }

  /** Putting the same value under a key it already holds is the identity. */
  lemma PutSame<K(!new), V>(d: Dict<K, V>, k: K)
    requires d.Valid() && k in d.vals
    ensures d.Put(k, d.vals[k]) == d
  {
  }
}
