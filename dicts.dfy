/**
 * Python dictionaries with string keys, as the plugin sees them: an
 * insertion-ordered list of entries. Iterating `d.items()` visits the
 * entries in this order, `d[k] = v` replaces the value of an existing key
 * where it stands and appends a new key at the end, and deleting a key
 * leaves the order of the others alone.
 */
module Dicts {
  import opened Text
  import opened Maybe

  type Dict<V> = seq<(String, V)>

  /** The keys in iteration order: `list(d)`. */
  function Keys<V>(d: Dict<V>): (r: seq<String>)
    ensures |r| == |d|
    ensures forall i :: 0 <= i < |d| ==> r[i] == d[i].0
  {
    if d == [] then [] else [d[0].0] + Keys(d[1..])
  }

  /** The values in iteration order: `list(d.values())`. */
  function Values<V>(d: Dict<V>): (r: seq<V>)
    ensures |r| == |d|
    ensures forall i :: 0 <= i < |d| ==> r[i] == d[i].1
  {
    if d == [] then [] else [d[0].1] + Values(d[1..])
  }

  /** No key appears twice, as in every Python dictionary. */
  predicate DistinctKeys<V>(d: Dict<V>) {
    forall i, j :: 0 <= i < j < |d| ==> d[i].0 != d[j].0
  }

  /** `d.get(k)`: the value stored under `k`, `None` when there is none. */
  function Get<V>(d: Dict<V>, k: String): (r: Option<V>)
    ensures r.None? <==> k !in Keys(d)
    ensures r.Some? ==> (k, r.value) in d
  {
    if d == [] then None
    else if d[0].0 == k then Some(d[0].1)
    else
      var r := Get(d[1..], k);
      assert Keys(d) == [d[0].0] + Keys(d[1..]);
      r
  }

  /** `d[k] = v`. */
  function Set<V>(d: Dict<V>, k: String, v: V): (r: Dict<V>)
    ensures k in Keys(d) ==> Keys(r) == Keys(d)
    ensures k !in Keys(d) ==> Keys(r) == Keys(d) + [k]
  {
    if d == [] then [(k, v)]
    else if d[0].0 == k then [(k, v)] + d[1..]
    else
      var r := [d[0]] + Set(d[1..], k, v);
      assert Keys(d) == [d[0].0] + Keys(d[1..]);
      assert Keys(r) == [d[0].0] + Keys(Set(d[1..], k, v));
      r
  }

  /** `d.pop(k, None)`: the entry of `k` is dropped, the others keep their order. */
  function Remove<V>(d: Dict<V>, k: String): (r: Dict<V>)
    ensures |r| <= |d|
    ensures k !in Keys(r)
    ensures forall i :: 0 <= i < |r| ==> r[i] in d && r[i].0 != k
    ensures forall i :: 0 <= i < |d| && d[i].0 != k ==> d[i] in r
  {
    if d == [] then []
    else if d[0].0 == k then Remove(d[1..], k)
    else
      var r := [d[0]] + Remove(d[1..], k);
      assert Keys(r) == [d[0].0] + Keys(Remove(d[1..], k));
      r
  }

  /** After `d[k] = v`, looking up `k` gives `v`. */
  lemma {:induction false} GetSetSame<V>(d: Dict<V>, k: String, v: V)
    ensures Get(Set(d, k, v), k) == Some(v)
  {
    if d != [] && d[0].0 != k {
      GetSetSame(d[1..], k, v);
    }
  }

  /** After `d[k] = v`, every other key looks up as before. */
  lemma {:induction false} GetSetOther<V>(d: Dict<V>, k: String, v: V, k': String)
    requires k' != k
    ensures Get(Set(d, k, v), k') == Get(d, k')
  {
    if d != [] && d[0].0 != k && d[0].0 != k' {
      GetSetOther(d[1..], k, v, k');
    }
  }

  /** Removing `k` leaves every other key looking up as before. */
  lemma {:induction false} GetRemoveOther<V>(d: Dict<V>, k: String, k': String)
    requires k' != k
    ensures Get(Remove(d, k), k') == Get(d, k')
  {
    if d != [] && d[0].0 != k' {
      GetRemoveOther(d[1..], k, k');
    }
  }

  /** Storing under a key keeps the keys distinct. */
  lemma {:induction false} SetDistinct<V>(d: Dict<V>, k: String, v: V)
    requires DistinctKeys(d)
    ensures DistinctKeys(Set(d, k, v))
  {
    var r := Set(d, k, v);
    assert forall i :: 0 <= i < |r| ==> r[i].0 == Keys(r)[i];
    assert forall i :: 0 <= i < |d| ==> d[i].0 == Keys(d)[i];
    if k !in Keys(d) {
      forall i, j | 0 <= i < j < |r| ensures r[i].0 != r[j].0 {
        if j == |d| {
          assert Keys(r)[j] == k;
          assert Keys(r)[i] == Keys(d)[i];
        } else {
          assert Keys(r)[i] == Keys(d)[i] && Keys(r)[j] == Keys(d)[j];
        }
      }
    } else {
      forall i, j | 0 <= i < j < |r| ensures r[i].0 != r[j].0 {
        assert Keys(r)[i] == Keys(d)[i] && Keys(r)[j] == Keys(d)[j];
      }
    }
  }
}
