/** A Python `dict`: a finite map whose keys also keep the order in which
    they were first inserted (the order `keys()` and iteration follow). */
module Dicts {

  /** The elements of a sequence, as a set. */
  function Elements<T>(s: seq<T>): set<T>
  {
    set i | 0 <= i < |s| :: s[i]
  }

  lemma ElementsAppend<T>(s: seq<T>, x: T)
    ensures Elements(s + [x]) == Elements(s) + {x}
  {
    forall y | y in Elements(s) ensures y in Elements(s + [x]) {
      var i :| 0 <= i < |s| && s[i] == y;
      assert (s + [x])[i] == y;
    }
    assert (s + [x])[|s|] == x;
  }

  datatype Dict<K, V> = Dict(keys: seq<K>, entries: map<K, V>)
  {
    /** Every key listed once, and exactly the keys that have entries. */
    ghost predicate Valid()
    {
      && (forall i, j :: 0 <= i < j < |keys| ==> keys[i] != keys[j])
      && entries.Keys == Elements(keys)
    }

    /** `d[k] = v`: a new key goes to the end of the order, an existing key
        keeps its place and only its value changes. */
    function Put(k: K, v: V): (d: Dict<K, V>)
      ensures Valid() ==> d.Valid()
      ensures d.entries == entries[k := v]
      ensures k in entries ==> d.keys == keys
      ensures k !in entries ==> d.keys == keys + [k]
    {
      if k in entries then Dict(keys, entries[k := v])
      else
        ElementsAppend(keys, k);
        Dict(keys + [k], entries[k := v])
    }
  }

  /** `{}`. */
  function Empty<K, V>(): (d: Dict<K, V>)
    ensures d.Valid() && d.keys == [] && d.entries == map[]
  {
    Dict([], map[])
  }
}
