/**
 * Python dictionaries whose insertion order matters, as association lists:
 * `d[k] = v` replaces the value in place when `k` is present and appends
 * otherwise, so iteration order is the order in which keys first arrived.
 */
module Dicts {
  import opened Wrappers

  type Dict<V> = seq<(string, V)>

  /** No key occurs twice; every dictionary the model builds keeps this. */
  ghost predicate UniqueKeys<V>(d: Dict<V>) {
    forall i, j :: 0 <= i < j < |d| ==> d[i].0 != d[j].0
  }

  function KeySet<V>(d: Dict<V>): (ks: set<string>)
    ensures forall i :: 0 <= i < |d| ==> d[i].0 in ks
    ensures forall k :: k in ks ==> exists i :: 0 <= i < |d| && d[i].0 == k
  {
    set i | 0 <= i < |d| :: d[i].0
  }

  function Values<V>(d: Dict<V>): (vs: set<V>)
    ensures forall i :: 0 <= i < |d| ==> d[i].1 in vs
    ensures forall v :: v in vs ==> exists i :: 0 <= i < |d| && d[i].1 == v
  {
    set i | 0 <= i < |d| :: d[i].1
  }

  /** `d.get(k)`. */
  function Get<V>(d: Dict<V>, k: string): (r: Option<V>)
    ensures r.None? <==> k !in KeySet(d)
    ensures r.Some? ==> exists i :: 0 <= i < |d| && d[i] == (k, r.value)
  {
    if d == [] then None
    else if d[0].0 == k then Some(d[0].1)
    else Get(d[1..], k)
  }

  /** `d[k] = v`. */
  function Put<V>(d: Dict<V>, k: string, v: V): (r: Dict<V>)
    ensures KeySet(r) == KeySet(d) + {k}
  {
    if d == [] then
      var r := [(k, v)];
      assert r[0].0 == k;
      r
    else if d[0].0 == k then
      KeySetCons((k, v), d[1..]);
      KeySetCons(d[0], d[1..]);
      assert d == [d[0]] + d[1..];
      [(k, v)] + d[1..]
    else
      var rest := Put(d[1..], k, v);
      KeySetCons(d[0], rest);
      KeySetCons(d[0], d[1..]);
      assert d == [d[0]] + d[1..];
      [d[0]] + rest
  }

  lemma KeySetCons<V>(x: (string, V), d: Dict<V>)
    ensures KeySet([x] + d) == {x.0} + KeySet(d)
  {
    var r := [x] + d;
    forall k | k in KeySet(r) ensures k in {x.0} + KeySet(d) {
      var i :| 0 <= i < |r| && r[i].0 == k;
      if i > 0 { assert r[i] == d[i - 1]; }
    }
    forall k | k in KeySet(d) ensures k in KeySet(r) {
      var i :| 0 <= i < |d| && d[i].0 == k;
      assert r[i + 1] == d[i];
    }
    assert r[0] == x;
  }

  lemma {:induction false} GetPut<V>(d: Dict<V>, k: string, v: V, k': string)
    ensures Get(Put(d, k, v), k') == if k' == k then Some(v) else Get(d, k')
  {
    if d != [] && d[0].0 != k {
      GetPut(d[1..], k, v, k');
    }
  }

  lemma {:induction false} PutUnique<V>(d: Dict<V>, k: string, v: V)
    requires UniqueKeys(d)
    ensures UniqueKeys(Put(d, k, v))
  {
    if d != [] && d[0].0 != k {
      PutUnique(d[1..], k, v);
      var r := Put(d, k, v);
      assert d[0].0 !in KeySet(d[1..]);
      assert forall j :: 0 < j < |r| ==> r[j] == Put(d[1..], k, v)[j - 1];
      assert forall j :: 0 < j < |r| ==> r[j].0 in KeySet(Put(d[1..], k, v));
    }
  }

  /** In a dictionary without repeated keys, `Get` finds the entry at any index. */
  lemma {:induction false} GetAt<V>(d: Dict<V>, i: nat)
    requires UniqueKeys(d) && i < |d|
    ensures Get(d, d[i].0) == Some(d[i].1)
  {
    if i > 0 {
      GetAt(d[1..], i - 1);
    }
  }
}
