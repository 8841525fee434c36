/**
 * JavaScript's `Map<string, V>` as the store uses it: `set`, `get`, `has`,
 * `size` and `values()`, where iteration follows insertion order and `set` on a
 * key already present replaces its value in place without moving it.
 */
module OrderedMaps {
  import opened Wrappers

  datatype OrderedMap<V> = OrderedMap(keys: seq<string>, entries: map<string, V>)
  {
    /** Keys are listed once each, and exactly the keys that have entries. */
    ghost predicate Valid()
    {
      && (forall i, j :: 0 <= i < j < |keys| ==> keys[i] != keys[j])
      && (forall k :: k in entries <==> k in keys)
    }

    predicate Has(k: string)
    {
      k in entries
    }

    function Size(): nat
    {
      |keys|
    }

    /** `map.get(k)`: `undefined` for a key never set. */
    function Get(k: string): (r: Option<V>)
      ensures r.None? <==> !Has(k)
      ensures r.Some? ==> r.value == entries[k]
    {
      if k in entries then Some(entries[k]) else None
    }

    /** `map.set(k, v)`. */
    function Set(k: string, v: V): (m: OrderedMap<V>)
      requires Valid()
      ensures m.Valid()
      ensures m.Get(k) == Some(v)
      ensures forall k' :: k' != k ==> m.Get(k') == Get(k')
      ensures m.Size() == if Has(k) then Size() else Size() + 1
    {
      OrderedMap(if k in entries then keys else keys + [k], entries[k := v])
    }

    /** `Array.from(map.values())`: the values in key-insertion order. */
    function Values(): (vs: seq<V>)
      requires Valid()
      ensures |vs| == Size()
      ensures forall i :: 0 <= i < |vs| ==> vs[i] == entries[keys[i]]
      ensures forall k :: k in entries ==> entries[k] in vs
    {
      seq(|keys|, i requires 0 <= i < |keys| => entries[keys[i]])
    }
  }

  /** `m'` keeps every key of `m`, in the same order and with the same value. */
  ghost predicate Extends<V>(m: OrderedMap<V>, m': OrderedMap<V>)
  {
    && m.keys <= m'.keys
    && (forall k :: k in m.entries ==> k in m'.entries && m'.entries[k] == m.entries[k])
  }

  function Empty<V>(): (m: OrderedMap<V>)
    ensures m.Valid() && m.Size() == 0
    ensures forall k :: !m.Has(k)
  {
    OrderedMap([], map[])
  }

  /** Each stored value is listed exactly once, at the position of its key. */
  lemma ValuesListEachEntryOnce<V>(m: OrderedMap<V>, k: string)
    requires m.Valid()
    ensures m.Has(k) <==> exists i :: 0 <= i < |m.keys| && m.keys[i] == k
    ensures forall i :: 0 <= i < |m.keys| && m.keys[i] == k ==> m.Values()[i] == m.entries[k]
    ensures forall i, j :: 0 <= i < |m.keys| && 0 <= j < |m.keys| && m.keys[i] == k && m.keys[j] == k ==> i == j
  {
    if m.Has(k) {
      var i :| 0 <= i < |m.keys| && m.keys[i] == k;
    }
  }

  /** Setting a new key appends its value to the iteration order. */
  lemma SetFreshAppends<V>(m: OrderedMap<V>, k: string, v: V)
    requires m.Valid() && !m.Has(k)
    ensures m.Set(k, v).Values() == m.Values() + [v]
    ensures m.Set(k, v).keys == m.keys + [k]
  {
    var m' := m.Set(k, v);
    assert forall i :: 0 <= i < |m.keys| ==> m.keys[i] != k;
    assert forall i :: 0 <= i < |m.keys| ==> m'.Values()[i] == m.Values()[i];
  }

  /** Setting a new key loses nothing: every earlier key keeps its place and its value. */
  lemma SetFreshExtends<V>(m: OrderedMap<V>, k: string, v: V)
    requires m.Valid() && !m.Has(k)
    ensures Extends(m, m.Set(k, v))
  {
  }

  /** Setting a present key keeps the order and replaces the value where it stood. */
  lemma SetPresentReplaces<V>(m: OrderedMap<V>, k: string, v: V, i: nat)
    requires m.Valid() && i < |m.keys| && m.keys[i] == k
    ensures m.Set(k, v).keys == m.keys
    ensures m.Set(k, v).Values() == m.Values()[i := v]
  {
    var m' := m.Set(k, v);
    forall j | 0 <= j < |m.keys| ensures m'.Values()[j] == m.Values()[i := v][j] {
      if j != i {
        assert m.keys[j] != k;
      }
    }
  }

  /** The map built by `set`ting `ids[i] -> vals[i]` for each `i` in order, from an empty map. */
  function FromEntries<V>(ids: seq<string>, vals: seq<V>): (m: OrderedMap<V>)
    requires |ids| == |vals|
    ensures m.Valid()
    ensures m.Size() <= |ids|
    ensures forall k :: m.Has(k) <==> k in ids
  {
    if |ids| == 0 then Empty()
    else
      var n := |ids| - 1;
      assert ids == ids[..n] + [ids[n]];
      FromEntries(ids[..n], vals[..n]).Set(ids[n], vals[n])
  }

  ghost predicate Distinct(ids: seq<string>)
  {
    forall i, j :: 0 <= i < j < |ids| ==> ids[i] != ids[j]
  }

  /** With distinct ids, the built map holds every value once, in the order given. */
  lemma {:induction false} FromDistinctEntries<V>(ids: seq<string>, vals: seq<V>)
    requires |ids| == |vals| && Distinct(ids)
    ensures FromEntries(ids, vals).keys == ids
    ensures FromEntries(ids, vals).Values() == vals
    ensures FromEntries(ids, vals).Size() == |ids|
  {
    if |ids| > 0 {
      var n := |ids| - 1;
      DistinctLast(ids);
      FromDistinctEntries(ids[..n], vals[..n]);
      FromEntriesFreshLast(ids, vals);
      SplitLast(vals);
      SplitLast(ids);
    }
  }

  /** When the last id is new, building from all entries appends the last one. */
  lemma FromEntriesFreshLast<V>(ids: seq<string>, vals: seq<V>)
    requires |ids| == |vals| && |ids| > 0
    requires ids[|ids| - 1] !in ids[..|ids| - 1]
    ensures FromEntries(ids, vals).keys == FromEntries(ids[..|ids| - 1], vals[..|ids| - 1]).keys + [ids[|ids| - 1]]
    ensures FromEntries(ids, vals).Values() == FromEntries(ids[..|ids| - 1], vals[..|ids| - 1]).Values() + [vals[|ids| - 1]]
  {
    var n := |ids| - 1;
    SetFreshAppends(FromEntries(ids[..n], vals[..n]), ids[n], vals[n]);
  }

  lemma SplitLast<T>(xs: seq<T>)
    requires |xs| > 0
    ensures xs[..|xs| - 1] + [xs[|xs| - 1]] == xs
  {
  }

  /** Dropping the last id keeps the rest distinct, and the last id is not among them. */
  lemma DistinctLast(ids: seq<string>)
    requires |ids| > 0 && Distinct(ids)
    ensures Distinct(ids[..|ids| - 1])
    ensures ids[|ids| - 1] !in ids[..|ids| - 1]
  {
  }

  /** Building from one more entry is one more `set`. */
  lemma FromEntriesSnoc<V>(ids: seq<string>, vals: seq<V>, i: nat)
    requires |ids| == |vals| && i < |ids|
    ensures FromEntries(ids[..i + 1], vals[..i + 1]) == FromEntries(ids[..i], vals[..i]).Set(ids[i], vals[i])
  {
    assert ids[..i + 1][..i] == ids[..i] && vals[..i + 1][..i] == vals[..i];
  }

  /** With distinct ids, looking up the i-th id finds the i-th value. */
  lemma FromDistinctEntriesGet<V>(ids: seq<string>, vals: seq<V>, i: nat)
    requires |ids| == |vals| && Distinct(ids) && i < |ids|
    ensures FromEntries(ids, vals).Get(ids[i]) == Some(vals[i])
  {
    FromDistinctEntries(ids, vals);
    var m := FromEntries(ids, vals);
    assert m.Values()[i] == m.entries[m.keys[i]];
  }
}
