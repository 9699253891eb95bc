/**
 * An insertion-ordered map, which is what a JavaScript `Map` is: iteration
 * visits the keys in the order in which each was first set, and setting a
 * key that is already present replaces its value in place.
 */
module OrderedMaps {

  type Key = string

  /** `keys` is the iteration order, `vals` the content. */
  datatype OMap<V> = OMap(keys: seq<Key>, vals: map<Key, V>) {

    /** Every key is listed exactly once, and exactly the keys of `vals` are listed. */
    ghost predicate Valid() {
      && Distinct(keys)
      && (forall k :: k in vals <==> k in keys)
    }

    /** `Map.prototype.set`: a new key goes to the end, a present key keeps its place. */
    function Put(k: Key, v: V): (r: OMap<V>)
      ensures Valid() ==> r.Valid()
      ensures k in r.vals && r.vals[k] == v
      ensures r.vals.Keys == vals.Keys + {k}
      ensures forall j :: j != k ==> (j in r.vals <==> j in vals)
      ensures forall j :: j != k && j in vals ==> r.vals[j] == vals[j]
      ensures k in vals ==> r.keys == keys
      ensures k !in vals ==> r.keys == keys + [k]
    {
      if k in vals then OMap(keys, vals[k := v]) else OMap(keys + [k], vals[k := v])
    }
  }

  function Empty<V>(): (r: OMap<V>)
    ensures r.Valid() && r.keys == [] && r.vals == map[]
  {
    OMap([], map[])
  }

  ghost predicate Distinct<T>(s: seq<T>) {
    forall i, j :: 0 <= i < j < |s| ==> s[i] != s[j]
  }

  /** Dropping the first element of a sequence without repeats leaves one without repeats, and without that element. */
  lemma DistinctTail<T>(s: seq<T>)
    requires Distinct(s) && s != []
    ensures Distinct(s[1..]) && s[0] !in s[1..]
  {
    forall j | 0 <= j < |s[1..]| ensures s[1..][j] != s[0] {
      assert s[1..][j] == s[j + 1];
    }
  }
}
