/**
 * A JavaScript `Map` with string keys, as MemStorage uses it: lookups by key,
 * `set` that inserts or replaces, and iteration over values in the order in
 * which their keys were first inserted.
 */
module JsMap {
  import opened Common

  /** `order` lists each key once, in first-insertion order; `entries` holds the values. */
  datatype Table<V> = Table(order: seq<string>, entries: map<string, V>)
  {
    ghost predicate Valid()
    {
      && (forall i, j :: 0 <= i < j < |order| ==> order[i] != order[j])
      && (forall k :: k in entries <==> k in order)
    }

    /** `map.get(key)`: the stored value, or `undefined` for an unknown key. */
    function Get(key: string): (r: Option<V>)
      ensures r.Some? <==> key in entries
      ensures r.Some? ==> r.value == entries[key]
    {
      if key in entries then Some(entries[key]) else None
    }

    /**
     * `map.set(key, value)`: `key` now maps to `value`, every other key keeps its
     * value, and a new key goes to the end of the iteration order while a known
     * key keeps its place.
     */
    function Set(key: string, value: V): (t: Table<V>)
      requires Valid()
      ensures t.Valid()
      ensures t.Get(key) == Some(value)
      ensures forall k :: k != key ==> t.Get(k) == Get(k)
      ensures key in entries ==> t.order == order
      ensures key !in entries ==> t.order == order + [key]
    {
      Table(if key in entries then order else order + [key], entries[key := value])
    }

    /** `Array.from(map.values())`: the values in key-insertion order. */
    function Values(): (r: seq<V>)
      requires Valid()
      ensures |r| == |order|
      ensures forall i :: 0 <= i < |order| ==> r[i] == entries[order[i]]
    {
      seq(|order|, i requires 0 <= i < |order| => entries[order[i]])
    }
  }

  /** `new Map()` */
  function Empty<V>(): (t: Table<V>)
    ensures t.Valid() && t.Values() == [] && t.entries == map[]
  {
    Table([], map[])
  }

  /** Inserting a new key appends its value to the iteration. */
  lemma ValuesAfterInsert<V>(t: Table<V>, key: string, value: V)
    requires t.Valid() && key !in t.entries
    ensures t.Set(key, value).Values() == t.Values() + [value]
  {
    var t' := t.Set(key, value);
    assert t'.order == t.order + [key];
    assert forall i :: 0 <= i < |t.order| ==> t'.order[i] == t.order[i] && t.order[i] != key;
  }

  /** Replacing the value of a known key changes that one position of the iteration only. */
  lemma ValuesAfterReplace<V>(t: Table<V>, key: string, value: V)
    requires t.Valid() && key in t.entries
    ensures |t.Set(key, value).Values()| == |t.Values()|
    ensures forall i :: 0 <= i < |t.order| ==>
      t.Set(key, value).Values()[i] == if t.order[i] == key then value else t.Values()[i]
  {
  }

  /** Every stored value is iterated, and every iterated value is stored under some key. */
  lemma ValuesAreEntries<V>(t: Table<V>)
    requires t.Valid()
    ensures forall k :: k in t.entries ==> t.entries[k] in t.Values()
    ensures forall v :: v in t.Values() ==> exists k :: k in t.entries && t.entries[k] == v
  {
    forall k | k in t.entries
      ensures t.entries[k] in t.Values()
    {
      var i :| 0 <= i < |t.order| && t.order[i] == k;
      assert t.Values()[i] == t.entries[k];
    }
  }

  /** The number of iterated values is the number of keys (`map.size`). */
  lemma {:induction false} SizeIsLength<V>(t: Table<V>)
    requires t.Valid()
    ensures |t.Values()| == |t.entries|
  {
    DistinctCard(t.order);
    assert t.entries.Keys == set k | k in t.order;
  }

  lemma {:induction false} DistinctCard(s: seq<string>)
    requires forall i, j :: 0 <= i < j < |s| ==> s[i] != s[j]
    ensures |set k | k in s| == |s|
  {
    if s != [] {
      DistinctCard(s[1..]);
      assert (set k | k in s) == {s[0]} + (set k | k in s[1..]);
      assert s[0] !in s[1..];
    }
  }
}
