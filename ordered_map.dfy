/**
 * Insertion-ordered maps, as Kotlin's `mutableMapOf`, `associate` and
 * `toMutableMap` build them (each a LinkedHashMap). A map is the sequence of
 * its entries in iteration order: binding a key that is already present
 * replaces its value where it stands, and a new key goes last.
 */
module OrderedMap {
  import opened Wrappers

  /** The keys of an entry sequence, in iteration order. */
  function Keys<K, V>(m: seq<(K, V)>): (ks: seq<K>)
    ensures |ks| == |m|
    ensures forall i :: 0 <= i < |m| ==> ks[i] == m[i].0
  {
    seq(|m|, i requires 0 <= i < |m| => m[i].0)
  }

  /** No key occurs twice, as in every map the source builds. */
  predicate UniqueKeys<K(==), V>(m: seq<(K, V)>) {
    forall i, j :: 0 <= i < j < |m| ==> m[i].0 != m[j].0
  }

  /** The position of the first entry whose key is k. */
  function IndexOf<K(==), V>(m: seq<(K, V)>, k: K): (r: Option<nat>)
    ensures r.None? <==> k !in Keys(m)
    ensures r.Some? ==> r.value < |m| && m[r.value].0 == k
    ensures r.Some? ==> forall j :: 0 <= j < r.value ==> m[j].0 != k
  {
    if m == [] then None
    else if m[0].0 == k then Some(0)
    else
      assert forall i :: 0 < i < |m| ==> Keys(m)[i] == Keys(m[1..])[i - 1];
      match IndexOf(m[1..], k)
      case None => None
      case Some(i) => Some(i + 1)
  }

  /** `m[k]` on a Kotlin map: the value bound to k, or null. */
  function Get<K(==), V>(m: seq<(K, V)>, k: K): (r: Option<V>)
    ensures r.None? <==> k !in Keys(m)
    ensures r.Some? ==> (k, r.value) in m
  {
    match IndexOf(m, k)
    case None => None
    case Some(i) => Some(m[i].1)
  }

  /** A position holding k with no k before it is the first position of k. */
  lemma IndexOfFirst<K, V>(m: seq<(K, V)>, k: K, i: nat)
    requires i < |m| && m[i].0 == k
    requires forall j :: 0 <= j < i ==> m[j].0 != k
    ensures IndexOf(m, k) == Some(i)
  {
    assert Keys(m)[i] == k;
  }

  /** Two entry sequences with the same key order find every key at the same position. */
  lemma IndexOfSameKeys<K, V>(m: seq<(K, V)>, r: seq<(K, V)>, k: K)
    requires Keys(m) == Keys(r)
    ensures IndexOf(m, k) == IndexOf(r, k)
  {
    if k in Keys(m) {
      var i := IndexOf(m, k).value;
      assert Keys(r)[i] == Keys(m)[i];
      assert forall j :: 0 <= j < i ==> r[j].0 == Keys(m)[j] == m[j].0;
      IndexOfFirst(r, k, i);
    }
  }

  /**
   * `put(k, v)` / `set(k, v)`: a key already present keeps its position and
   * takes the new value (last write wins); a new key is appended.
   */
  function Put<K(==), V>(m: seq<(K, V)>, k: K, v: V): (r: seq<(K, V)>)
    ensures k !in Keys(m) ==> r == m + [(k, v)]
    ensures m == [] ==> r == [(k, v)]
    ensures k in Keys(m) ==>
      && |r| == |m|
      && r[IndexOf(m, k).value] == (k, v)
      && forall i :: 0 <= i < |m| && i != IndexOf(m, k).value ==> r[i] == m[i]
    ensures UniqueKeys(m) ==> UniqueKeys(r)
  {
    match IndexOf(m, k)
    case None =>
      assert forall i :: 0 <= i < |m| ==> m[i].0 == Keys(m)[i] != k;
      assert m == [] ==> m + [(k, v)] == [(k, v)];
      m + [(k, v)]
    case Some(i) =>
      m[i := (k, v)]
  }

  /** A bind keeps the key order; only a new key is added, at the end. */
  lemma PutKeys<K, V>(m: seq<(K, V)>, k: K, v: V)
    ensures Keys(Put(m, k, v)) == if k in Keys(m) then Keys(m) else Keys(m) + [k]
  {
    var r := Put(m, k, v);
    if k in Keys(m) {
      assert forall j :: 0 <= j < |r| ==> Keys(r)[j] == Keys(m)[j];
    } else {
      assert forall j :: 0 <= j < |r| ==> Keys(r)[j] == (Keys(m) + [k])[j];
    }
  }

  /** After a bind, the key is bound to the new value. */
  lemma PutGet<K, V>(m: seq<(K, V)>, k: K, v: V)
    ensures Get(Put(m, k, v), k) == Some(v)
  {
    var r := Put(m, k, v);
    if k in Keys(m) {
      IndexOfFirst(r, k, IndexOf(m, k).value);
    } else {
      assert forall j :: 0 <= j < |m| ==> r[j].0 == Keys(m)[j];
      IndexOfFirst(r, k, |m|);
    }
  }

  /** A bind leaves the value of every other key as it was. */
  lemma PutGetOther<K, V>(m: seq<(K, V)>, k: K, v: V, k': K)
    requires k' != k
    ensures Get(Put(m, k, v), k') == Get(m, k')
  {
    var r := Put(m, k, v);
    PutKeys(m, k, v);
    if k in Keys(m) {
      IndexOfSameKeys(m, r, k');
    } else if k' in Keys(m) {
      IndexOfPrefix(m, r, k');
    } else {
      assert k' !in Keys(r);
    }
  }

  /**
   * r is m with k bound to v, as far as key order and lookups can tell: a
   * new key goes last, an existing one keeps its place, k now maps to v and
   * every other key to what it mapped to before.
   */
  ghost predicate Binds<K(!new), V>(m: seq<(K, V)>, r: seq<(K, V)>, k: K, v: V) {
    && KeysAfterBind(m, r, k)
    && Get(r, k) == Some(v)
    && forall k' :: k' != k ==> Get(r, k') == Get(m, k')
  }

  /** The key order of r is that of m after binding k: a new key goes last. */
  predicate KeysAfterBind<K(==), V>(m: seq<(K, V)>, r: seq<(K, V)>, k: K) {
    Keys(r) == (if k in Keys(m) then Keys(m) else Keys(m) + [k])
  }

  /** Put binds in exactly that sense. */
  lemma PutBinds<K(!new), V>(m: seq<(K, V)>, k: K, v: V)
    ensures Binds(m, Put(m, k, v), k, v)
  {
    PutKeys(m, k, v);
    PutGet(m, k, v);
    forall k' | k' != k ensures Get(Put(m, k, v), k') == Get(m, k') {
      PutGetOther(m, k, v, k');
    }
  }

  /** After a bind, the keys present are the old ones and k. */
  lemma PutHasKey<K, V>(m: seq<(K, V)>, k: K, v: V, x: K)
    ensures x in Keys(Put(m, k, v)) <==> x in Keys(m) || x == k
  {
    PutKeys(m, k, v);
  }

  /** Binding a key absent from a map whose key order is ks gives the key order ks + [k]. */
  lemma PutNewKey<K, V>(m: seq<(K, V)>, k: K, v: V, ks: seq<K>)
    requires Keys(m) == ks && k !in ks
    ensures Keys(Put(m, k, v)) == ks + [k]
  {
    PutKeys(m, k, v);
  }

  /**
   * `associate { (key, value) -> key to value }.toMutableMap()`: the pairs
   * are bound one after another, left to right.
   */
  function FromPairs<K(==), V>(ps: seq<(K, V)>): (m: seq<(K, V)>)
    ensures UniqueKeys(m)
  {
    if ps == [] then []
    else
      var last := ps[|ps| - 1];
      Put(FromPairs(ps[..|ps| - 1]), last.0, last.1)
  }

  /** Pairs whose keys are all different are bound as they stand: the map is the pair sequence itself. */
  lemma {:induction false} FromPairsDistinct<K, V>(ps: seq<(K, V)>)
    requires UniqueKeys(ps)
    ensures FromPairs(ps) == ps
  {
    if ps != [] {
      var init, last := ps[..|ps| - 1], ps[|ps| - 1];
      FromPairsDistinct(init);
      assert last.0 !in Keys(init) by {
        forall i | 0 <= i < |init| ensures init[i].0 != last.0 {
          assert init[i] == ps[i];
        }
      }
      assert init + [last] == ps;
    }
  }

  /** The keys of the built map are exactly the names of the pairs. */
  lemma {:induction false} FromPairsKeys<K, V>(ps: seq<(K, V)>, k: K)
    ensures k in Keys(FromPairs(ps)) <==> k in Keys(ps)
  {
    if ps != [] {
      var init, last := ps[..|ps| - 1], ps[|ps| - 1];
      var m' := FromPairs(init);
      assert FromPairs(ps) == Put(m', last.0, last.1);
      FromPairsKeys(init, k);
      PutHasKey(m', last.0, last.1, k);
      assert Keys(ps) == Keys(init) + [last.0];
    }
  }

  /** Both keys occur in ps, and the first occurrence of a comes before that of b. */
  predicate Before<K(==), V>(ps: seq<(K, V)>, a: K, b: K) {
    a in Keys(ps) && b in Keys(ps) && IndexOf(ps, a).value < IndexOf(ps, b).value
  }

  /** The key at each position after a bind: the old key, or k at the one new position. */
  lemma PutKeyAt<K, V>(m: seq<(K, V)>, k: K, v: V, i: nat)
    requires i < |Put(m, k, v)|
    ensures i < |m| ==> Put(m, k, v)[i].0 == m[i].0
    ensures i == |m| ==> k !in Keys(m) && Put(m, k, v)[i].0 == k
  {
    PutKeys(m, k, v);
    assert Keys(Put(m, k, v))[i] == Put(m, k, v)[i].0;
  }

  /** A key that first occurs in the last pair is found there. */
  lemma IndexOfLastNew<K, V>(ps: seq<(K, V)>, k: K)
    requires ps != [] && ps[|ps| - 1].0 == k && k !in Keys(ps[..|ps| - 1])
    ensures IndexOf(ps, k) == Some(|ps| - 1)
  {
    assert forall j :: 0 <= j < |ps| - 1 ==> ps[j].0 == Keys(ps[..|ps| - 1])[j];
    IndexOfFirst(ps, k, |ps| - 1);
  }

  /** The keys of the built map appear in the order of their first occurrence among the pairs. */
  lemma {:induction false} FromPairsOrder<K, V>(ps: seq<(K, V)>, i: nat, j: nat)
    requires i < j < |FromPairs(ps)|
    ensures Before(ps, FromPairs(ps)[i].0, FromPairs(ps)[j].0)
  {
    var n := |ps|;
    var init, last := ps[..n - 1], ps[n - 1];
    var m' := FromPairs(init);
    assert FromPairs(ps) == Put(m', last.0, last.1);
    PutKeyAt(m', last.0, last.1, i);
    PutKeyAt(m', last.0, last.1, j);
    var a, b := FromPairs(ps)[i].0, FromPairs(ps)[j].0;
    assert a in Keys(init) by {
      assert Keys(m')[i] == a;
      FromPairsKeys(init, a);
    }
    IndexOfPrefix(init, ps, a);
    if j < |m'| {
      assert Keys(m')[j] == b;
      FromPairsKeys(init, b);
      FromPairsOrder(init, i, j);
      IndexOfPrefix(init, ps, b);
    } else {
      FromPairsKeys(init, b);
      IndexOfLastNew(ps, b);
    }
  }

  /** The keys of m appear in the order of their first occurrence in ps. */
  predicate InFirstOccurrenceOrder<K(==), V>(m: seq<(K, V)>, ps: seq<(K, V)>) {
    forall i, j :: 0 <= i < j < |m| ==> Before(ps, m[i].0, m[j].0)
  }

  /** FromPairsOrder for every two positions at once. */
  lemma FromPairsInOrder<K, V>(ps: seq<(K, V)>)
    ensures InFirstOccurrenceOrder(FromPairs(ps), ps)
  {
    var m := FromPairs(ps);
    forall i: int, j: int | 0 <= i < j < |m| ensures Before(ps, m[i].0, m[j].0) {
      FromPairsOrder(ps, i, j);
    }
  }

  /** The first occurrence of a key in a prefix is its first occurrence in the whole. */
  lemma IndexOfPrefix<K, V>(pre: seq<(K, V)>, ps: seq<(K, V)>, k: K)
    requires pre <= ps && k in Keys(pre)
    ensures k in Keys(ps) && IndexOf(ps, k) == IndexOf(pre, k)
  {
    var i := IndexOf(pre, k).value;
    assert forall j :: 0 <= j <= i ==> ps[j] == pre[j];
    IndexOfFirst(ps, k, i);
  }

  /** The position of the last entry whose key is k. */
  function LastIndexOf<K(==), V>(ps: seq<(K, V)>, k: K): (r: Option<nat>)
    ensures r.None? <==> k !in Keys(ps)
    ensures r.Some? ==> r.value < |ps| && ps[r.value].0 == k
    ensures r.Some? ==> forall j :: r.value < j < |ps| ==> ps[j].0 != k
  {
    if ps == [] then None
    else if ps[|ps| - 1].0 == k then Some(|ps| - 1)
    else
      assert Keys(ps) == Keys(ps[..|ps| - 1]) + [ps[|ps| - 1].0];
      LastIndexOf(ps[..|ps| - 1], k)
  }

  /** The value of the last pair named k, if any. */
  function LastValue<K(==), V>(ps: seq<(K, V)>, k: K): Option<V> {
    match LastIndexOf(ps, k)
    case None => None
    case Some(i) => Some(ps[i].1)
  }

  /** Each name is bound to the value of the LAST pair with that name (last write wins). */
  lemma {:induction false} FromPairsLastWins<K, V>(ps: seq<(K, V)>, k: K)
    ensures Get(FromPairs(ps), k) == LastValue(ps, k)
  {
    if ps == [] {
    } else {
      var n := |ps|;
      var init := ps[..n - 1];
      var (k', v') := ps[n - 1];
      if k' == k {
        PutGet(FromPairs(init), k, v');
      } else {
        FromPairsLastWins(init, k);
        PutGetOther(FromPairs(init), k', v', k);
      }
    }
  }
}
