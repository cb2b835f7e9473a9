// Python's insertion-ordered `dict`, as a sequence of key/value pairs with
// distinct keys: assigning to an existing key keeps its position, a new key
// goes to the end, and `del` removes one key and keeps the order of the rest.

module Dict {
  import opened Common

  type Entries<K, V> = seq<(K, V)>

  function Keys<K(==), V>(e: Entries<K, V>): (ks: seq<K>)
    ensures |ks| == |e| && forall i :: 0 <= i < |e| ==> ks[i] == e[i].0
  {
    if e == [] then [] else [e[0].0] + Keys(e[1..])
  }

  predicate DistinctKeys<K(==), V>(e: Entries<K, V>)
  {
    forall i, j :: 0 <= i < j < |e| ==> e[i].0 != e[j].0
  }

  predicate HasKey<K(==), V>(e: Entries<K, V>, k: K)
  {
    exists i :: 0 <= i < |e| && e[i].0 == k
  }

  lemma HasKeyCons<K, V>(e: Entries<K, V>, k: K)
    requires e != []
    ensures HasKey(e, k) <==> e[0].0 == k || HasKey(e[1..], k)
  {
    if HasKey(e[1..], k) {
      var i :| 0 <= i < |e[1..]| && e[1..][i].0 == k;
      assert e[i + 1].0 == k;
    }
    if HasKey(e, k) && e[0].0 != k {
      var i :| 0 <= i < |e| && e[i].0 == k;
      assert i > 0 && e[1..][i - 1].0 == k;
    }
  }

  /** `d.get(k)`: the value of the first pair with key `k`. */
  function Get<K(==), V>(e: Entries<K, V>, k: K): (r: Option<V>)
    ensures r.None? <==> !HasKey(e, k)
    ensures r.Some? ==> exists i :: 0 <= i < |e| && e[i] == (k, r.value)
  {
    if e == [] then None
    else if e[0].0 == k then Some(e[0].1)
    else
      var r := Get(e[1..], k);
      assert r.Some? ==> exists i :: 0 <= i < |e[1..]| && e[1..][i] == (k, r.value);
      HasKeyCons(e, k);
      r
  }

  /** `d[k] = v`. */
  function Put<K(==), V>(e: Entries<K, V>, k: K, v: V): (r: Entries<K, V>)
    ensures |r| == |e| || |r| == |e| + 1
  {
    if e == [] then [(k, v)]
    else if e[0].0 == k then [(k, v)] + e[1..]
    else [e[0]] + Put(e[1..], k, v)
  }

  /** `del d[k]` when `k in d`, no change otherwise. */
  function Delete<K(==), V>(e: Entries<K, V>, k: K): (r: Entries<K, V>)
    ensures |r| <= |e|
  {
    if e == [] then []
    else if e[0].0 == k then Delete(e[1..], k)
    else [e[0]] + Delete(e[1..], k)
  }

  /** After `d[k] = v`, `d[k]` is `v` and every other key keeps its value. */
  lemma {:induction false} PutGet<K, V>(e: Entries<K, V>, k: K, v: V, k': K)
    ensures Get(Put(e, k, v), k') == if k' == k then Some(v) else Get(e, k')
    decreases |e|
  {
    if e != [] && e[0].0 != k {
      PutGet(e[1..], k, v, k');
      assert Put(e, k, v)[1..] == Put(e[1..], k, v);
    } else if e != [] {
      assert Put(e, k, v)[1..] == e[1..];
    }
  }

  /** `d[k] = v` keeps the key order: an existing key stays in place, a new one is appended. */
  lemma {:induction false} PutKeys<K, V>(e: Entries<K, V>, k: K, v: V)
    ensures Keys(Put(e, k, v)) == if HasKey(e, k) then Keys(e) else Keys(e) + [k]
    decreases |e|
  {
    if e == [] {
    } else if e[0].0 == k {
      HasKeyCons(e, k);
      assert Keys(Put(e, k, v)) == [k] + Keys(e[1..]);
    } else {
      PutKeys(e[1..], k, v);
      HasKeyCons(e, k);
      assert Keys(Put(e, k, v)) == [e[0].0] + Keys(Put(e[1..], k, v));
      assert Keys(e) == [e[0].0] + Keys(e[1..]);
    }
  }

  /** `d[k] = v` keeps keys distinct. */
  lemma PutDistinct<K, V>(e: Entries<K, V>, k: K, v: V)
    requires DistinctKeys(e)
    ensures DistinctKeys(Put(e, k, v))
  {
    PutKeys(e, k, v);
    var r := Put(e, k, v);
    assert forall i :: 0 <= i < |r| ==> r[i].0 == Keys(r)[i];
    assert forall i :: 0 <= i < |e| ==> e[i].0 == Keys(e)[i];
  }

  /** After `del d[k]`, `k` is absent and every other key keeps its value. */
  lemma {:induction false} DeleteGet<K, V>(e: Entries<K, V>, k: K, k': K)
    ensures Get(Delete(e, k), k') == if k' == k then None else Get(e, k')
    decreases |e|
  {
    if e != [] {
      DeleteGet(e[1..], k, k');
      if e[0].0 != k {
        assert Delete(e, k)[1..] == Delete(e[1..], k);
      }
    }
  }

  /** `del` keeps the other keys in order. */
  lemma {:induction false} DeleteKeys<K, V>(e: Entries<K, V>, k: K)
    ensures forall i :: 0 <= i < |Delete(e, k)| ==> Delete(e, k)[i].0 != k
    ensures multiset(Delete(e, k)) <= multiset(e)
    decreases |e|
  {
    if e != [] {
      DeleteKeys(e[1..], k);
      assert e == [e[0]] + e[1..];
      if e[0].0 != k {
        assert Delete(e, k) == [e[0]] + Delete(e[1..], k);
      }
    }
  }

  /** Removing an absent key changes nothing. */
  lemma {:induction false} DeleteAbsent<K, V>(e: Entries<K, V>, k: K)
    requires !HasKey(e, k)
    ensures Delete(e, k) == e
    decreases |e|
  {
    if e != [] {
      assert e[0].0 != k;
      HasKeyCons(e, k);
      DeleteAbsent(e[1..], k);
      assert e == [e[0]] + e[1..];
    }
  }

  /** `del` keeps keys distinct. */
  lemma DeleteDistinct<K, V>(e: Entries<K, V>, k: K)
    requires DistinctKeys(e)
    ensures DistinctKeys(Delete(e, k))
  {
    DeleteSubsequence(e, k);
  }

  /** The pairs of `Delete(e, k)` are those of `e` without key `k`, in their order. */
  lemma {:induction false} DeleteSubsequence<K, V>(e: Entries<K, V>, k: K)
    requires DistinctKeys(e)
    ensures DistinctKeys(Delete(e, k))
    ensures forall i :: 0 <= i < |Delete(e, k)| ==> HasKey(e, Delete(e, k)[i].0)
    decreases |e|
  {
    if e != [] {
      var tail := e[1..];
      assert DistinctKeys(tail) by {
        forall i, j | 0 <= i < j < |tail| ensures tail[i].0 != tail[j].0 {
          assert tail[i] == e[i + 1] && tail[j] == e[j + 1];
        }
      }
      DeleteSubsequence(tail, k);
      var d := Delete(tail, k);
      forall i | 0 <= i < |d| ensures HasKey(e, d[i].0) {
        var j :| 0 <= j < |tail| && tail[j].0 == d[i].0;
        assert e[j + 1].0 == d[i].0;
      }
      if e[0].0 != k {
        var r := [e[0]] + d;
        assert Delete(e, k) == r;
        forall i | 0 <= i < |d| ensures d[i].0 != e[0].0 {
          var j :| 0 <= j < |tail| && tail[j].0 == d[i].0;
          assert e[j + 1].0 == d[i].0;
        }
        assert forall i :: 0 < i < |r| ==> r[i] == d[i - 1];
        assert HasKey(e, e[0].0);
      }
    }
  }
}
