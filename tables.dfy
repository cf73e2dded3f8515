/**
 * The lookup tables of every revision are `HashMap`s built once by `Iterator::collect` over a
 * list of (key, value) entries. This module models that collect step and the facts about it
 * the tables rely on: with pairwise distinct keys no entry is lost, the map has one key per
 * entry, and each key maps to the value written beside it. Distinctness of a long literal
 * list is shown by numbering its keys: a function that sends the i-th key to i.
 */
module Tables {

  datatype Option<T> = None | Some(value: T)

  /** The keys of the entries, in order. */
  function Keys<K, V>(entries: seq<(K, V)>): (r: seq<K>)
    ensures |r| == |entries|
    ensures forall i :: 0 <= i < |r| ==> r[i] == entries[i].0
  {
    seq(|entries|, i requires 0 <= i < |entries| => entries[i].0)
  }

  ghost predicate Distinct<K>(ks: seq<K>)
  {
    forall i, j :: 0 <= i < j < |ks| ==> ks[i] != ks[j]
  }

  /**
   * `collect()` into a `HashMap`: the entries are inserted in order, and an entry whose key is
   * already present replaces the earlier value.
   */
  function Collect<K(!new), V>(entries: seq<(K, V)>): (m: map<K, V>)
    ensures forall k :: k in m <==> k in Keys(entries)
  {
    if entries == [] then map[]
    else
      var last := entries[|entries| - 1];
      assert Keys(entries) == Keys(entries[..|entries| - 1]) + [last.0];
      Collect(entries[..|entries| - 1])[last.0 := last.1]
  }

  /** The last entry is inserted last. */
  lemma CollectSnoc<K(!new), V>(entries: seq<(K, V)>)
    requires entries != []
    ensures var n := |entries|;
      Collect(entries) == Collect(entries[..n - 1])[entries[n - 1].0 := entries[n - 1].1]
  {
  }

  /** Dropping the last entry keeps the keys distinct, and the last key differs from every other. */
  lemma DistinctFront<K, V>(entries: seq<(K, V)>, i: int)
    requires Distinct(Keys(entries)) && 0 <= i < |entries| - 1
    ensures Distinct(Keys(entries[..|entries| - 1]))
    ensures entries[i].0 != entries[|entries| - 1].0
  {
    var n := |entries|;
    var ks, front := Keys(entries), Keys(entries[..n - 1]);
    forall a, b | 0 <= a < b < n - 1
      ensures front[a] != front[b]
    {
      assert front[a] == ks[a] && front[b] == ks[b];
    }
    assert ks[i] != ks[n - 1];
  }

  /** With distinct keys, every entry survives the collect unchanged. */
  lemma {:induction false} CollectLookup<K(!new), V>(entries: seq<(K, V)>, i: int)
    requires Distinct(Keys(entries)) && 0 <= i < |entries|
    ensures entries[i].0 in Collect(entries)
    ensures Collect(entries)[entries[i].0] == entries[i].1
  {
    hide Collect, Distinct, Keys;
    var n := |entries|;
    CollectSnoc(entries);
    if i < n - 1 {
      DistinctFront(entries, i);
      CollectLookup(entries[..n - 1], i);
    }
  }

  /** With distinct keys the map has exactly one key per entry. */
  lemma {:induction false} CollectSize<K(!new), V>(entries: seq<(K, V)>)
    requires Distinct(Keys(entries))
    ensures |Collect(entries)| == |entries|
  {
    hide Collect;
    var n := |entries|;
    if n > 0 {
      CollectSnoc(entries);
      var front := entries[..n - 1];
      assert Keys(front) == Keys(entries)[..n - 1];
      CollectSize(front);
      assert entries[n - 1].0 !in Keys(front);
    }
  }

  /** Every entry, looked up by its key, gives the value written beside it. */
  lemma CollectHas<K(!new), V>(entries: seq<(K, V)>, k: K, v: V)
    requires Distinct(Keys(entries)) && (k, v) in entries
    ensures k in Collect(entries) && Collect(entries)[k] == v
  {
    var i :| 0 <= i < |entries| && entries[i] == (k, v);
    CollectLookup(entries, i);
  }

  /** Entry i of e has key number base + i. */
  ghost predicate NumberedFrom<K, V>(e: seq<(K, V)>, number: K -> int, base: int)
  {
    forall i :: 0 <= i < |e| ==> number(e[i].0) == base + i
  }

  lemma NumberedConcat<K, V>(a: seq<(K, V)>, b: seq<(K, V)>, number: K -> int, base: int)
    requires NumberedFrom(a, number, base) && NumberedFrom(b, number, base + |a|)
    ensures NumberedFrom(a + b, number, base)
  {
    forall i | 0 <= i < |a + b|
      ensures number((a + b)[i].0) == base + i
    {
      if i >= |a| {
        assert (a + b)[i] == b[i - |a|];
      }
    }
  }

  /** Keys that can be numbered in order are distinct. */
  lemma NumberedDistinct<K, V>(e: seq<(K, V)>, number: K -> int)
    requires NumberedFrom(e, number, 0)
    ensures Distinct(Keys(e))
  {
    forall i, j | 0 <= i < j < |e|
      ensures Keys(e)[i] != Keys(e)[j]
    {
      assert number(e[i].0) != number(e[j].0);
    }
  }

  lemma KeysConcat<K, V>(a: seq<(K, V)>, b: seq<(K, V)>)
    ensures Keys(a + b) == Keys(a) + Keys(b)
  {
  }

  /** Every entry has property p. */
  ghost predicate AllEntries<K, V>(e: seq<(K, V)>, p: (K, V) -> bool)
  {
    forall i :: 0 <= i < |e| ==> p(e[i].0, e[i].1)
  }

  lemma AllEntriesConcat<K, V>(a: seq<(K, V)>, b: seq<(K, V)>, p: (K, V) -> bool)
    requires AllEntries(a, p) && AllEntries(b, p)
    ensures AllEntries(a + b, p)
  {
    forall i | |a| <= i < |a + b|
      ensures p((a + b)[i].0, (a + b)[i].1)
    {
      assert (a + b)[i] == b[i - |a|];
    }
  }

  /** With distinct keys, a property of every entry holds of every key and its value in the map. */
  lemma CollectAll<K(!new), V>(e: seq<(K, V)>, p: (K, V) -> bool, k: K)
    requires Distinct(Keys(e)) && AllEntries(e, p) && k in Collect(e)
    ensures p(k, Collect(e)[k])
  {
    var i :| 0 <= i < |e| && Keys(e)[i] == k;
    CollectLookup(e, i);
  }

  /** The lookup `HashMap::get`, as an option. */
  function Get<K, V>(m: map<K, V>, k: K): (r: Option<V>)
    ensures r.Some? <==> k in m
    ensures r.Some? ==> r.value == m[k]
  {
    if k in m then Some(m[k]) else None
  }
}
