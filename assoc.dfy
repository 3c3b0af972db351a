/**
 * An insertion-ordered dictionary: a JavaScript `Map`, or a plain object used
 * as a record of entries. `Put` overwrites an existing key where it stands and
 * appends a new key at the end, as `map.set(k, v)` and `{ ...prev, [k]: v }` do.
 */
module Assoc {
  import opened Wrappers

  function Keys<K, V>(e: seq<(K, V)>): (ks: seq<K>)
    ensures |ks| == |e| && forall i :: 0 <= i < |e| ==> ks[i] == e[i].0
  {
    seq(|e|, i requires 0 <= i < |e| => e[i].0)
  }

  /** `Array.from(map.values())` / `Object.values(obj)`, in entry order. */
  function Values<K, V>(e: seq<(K, V)>): (vs: seq<V>)
    ensures |vs| == |e| && forall i :: 0 <= i < |e| ==> vs[i] == e[i].1
  {
    seq(|e|, i requires 0 <= i < |e| => e[i].1)
  }

  predicate UniqueKeys<K(==,!new), V>(e: seq<(K, V)>) {
    forall i, j :: 0 <= i < j < |e| ==> e[i].0 != e[j].0
  }

  /** Where `k` first stands. */
  function IndexOfKey<K(==,!new), V>(e: seq<(K, V)>, k: K): (i: nat)
    requires k in Keys(e)
    ensures i < |e| && e[i].0 == k
    ensures forall j :: 0 <= j < i ==> e[j].0 != k
  {
    if e[0].0 == k then 0
    else
      assert Keys(e) == [e[0].0] + Keys(e[1..]);
      1 + IndexOfKey(e[1..], k)
  }

  /** `map.get(k)`: the value stored under `k`, if any. */
  function Get<K(==,!new), V>(e: seq<(K, V)>, k: K): (r: Option<V>)
    ensures r.Some? <==> k in Keys(e)
    ensures UniqueKeys(e) ==> forall i :: 0 <= i < |e| && e[i].0 == k ==> r == Some(e[i].1)
  {
    if k in Keys(e) then Some(e[IndexOfKey(e, k)].1) else None
  }

  /** `map.set(k, v)`: only `k` changes, and a new key goes last. */
  function Put<K(==,!new), V>(e: seq<(K, V)>, k: K, v: V): (r: seq<(K, V)>)
    ensures Get(r, k) == Some(v)
    ensures forall k' :: k' != k ==> Get(r, k') == Get(e, k')
    ensures k in Keys(e) ==> Keys(r) == Keys(e)
    ensures k !in Keys(e) ==> r == e + [(k, v)]
    ensures UniqueKeys(e) ==> UniqueKeys(r)
  {
    if k in Keys(e) then
      var i := IndexOfKey(e, k);
      var r := e[i := (k, v)];
      assert Keys(r) == Keys(e);
      assert IndexOfKey(r, k) == i;
      forall k' | k' != k ensures Get(r, k') == Get(e, k') {
        if k' in Keys(e) {
          var j := IndexOfKey(e, k');
          assert IndexOfKey(r, k') == j;
        }
      }
      r
    else
      var r := e + [(k, v)];
      assert Keys(r) == Keys(e) + [k];
      assert IndexOfKey(r, k) == |e|;
      forall k' | k' != k ensures Get(r, k') == Get(e, k') {
        if k' in Keys(e) {
          var j := IndexOfKey(e, k');
          var j' := IndexOfKey(r, k');
          assert j' != |e|;
          assert r[j'] == e[j'] && r[j] == e[j];
        }
      }
      r
  }

  /** Of two writes to one key only the second survives. */
  lemma PutTwice<K(!new), V>(e: seq<(K, V)>, k: K, a: V, b: V)
    ensures Put(Put(e, k, a), k, b) == Put(e, k, b)
  {
    if k in Keys(e) {
      var i := IndexOfKey(e, k);
      var e1 := e[i := (k, a)];
      assert Put(e, k, a) == e1;
      assert Keys(e1) == Keys(e);
      assert IndexOfKey(e1, k) == i;
      assert e1[i := (k, b)] == e[i := (k, b)];
    } else {
      var e1 := e + [(k, a)];
      assert Keys(e1) == Keys(e) + [k];
      assert IndexOfKey(e1, k) == |e|;
      assert e1[|e| := (k, b)] == e + [(k, b)];
    }
  }

  /** The key set after a write: the old keys plus the written one. */
  lemma PutKeys<K(!new), V>(e: seq<(K, V)>, k: K, v: V)
    ensures forall k' :: k' in Keys(Put(e, k, v)) <==> k' == k || k' in Keys(e)
  {
    forall k' ensures k' in Keys(Put(e, k, v)) <==> k' == k || k' in Keys(e) {
      if k' != k {
        assert Get(Put(e, k, v), k') == Get(e, k');
      }
    }
  }
}
