/** Association lists in insertion order: what maps and sets are to a program. */
module AssocList {
  datatype Pair<K, V> = Pair(key: K, val: V)

  /** Where a key equal to k is, or -1. */
  function Find<K, V>(l: seq<Pair<K, V>>, eq: (K, K) -> bool, k: K): (i: int)
    ensures -1 <= i < |l|
    ensures i >= 0 ==> eq(l[i].key, k)
    ensures forall j | 0 <= j < |l| && (i < 0 || j < i) :: !eq(l[j].key, k)
  {
    if l == [] then -1
    else if eq(l[0].key, k) then 0
    else var i := Find(l[1..], eq, k); if i < 0 then -1 else i + 1
  }

  /** Overwriting keeps the place and the key that was there; a new key goes last. */
  function Set<K, V>(l: seq<Pair<K, V>>, eq: (K, K) -> bool, k: K, v: V): seq<Pair<K, V>> {
    var i := Find(l, eq, k);
    if i < 0 then l + [Pair(k, v)] else l[i := Pair(l[i].key, v)]
  }

  function Delete<K, V>(l: seq<Pair<K, V>>, eq: (K, K) -> bool, k: K): seq<Pair<K, V>> {
    var i := Find(l, eq, k);
    if i < 0 then l else l[..i] + l[i + 1..]
  }

  /** No key twice. */
  ghost predicate Distinct<K, V>(l: seq<Pair<K, V>>, eq: (K, K) -> bool) {
    forall i, j | 0 <= i < |l| && 0 <= j < |l| && i != j :: !eq(l[i].key, l[j].key)
  }

  ghost predicate Equivalence<K(!new)>(eq: (K, K) -> bool) {
    && (forall x :: eq(x, x))
    && (forall x, y | eq(x, y) :: eq(y, x))
    && (forall x, y, z | eq(x, y) && eq(y, z) :: eq(x, z))
  }

  lemma {:induction false} FindAppend<K, V>(x: seq<Pair<K, V>>, y: seq<Pair<K, V>>, eq: (K, K) -> bool, k: K)
    ensures var i, j := Find(x, eq, k), Find(y, eq, k);
      Find(x + y, eq, k) == if i >= 0 then i else if j < 0 then -1 else |x| + j
  {
    if x == [] {
      assert x + y == y;
    } else {
      assert (x + y)[1..] == x[1..] + y;
      FindAppend(x[1..], y, eq, k);
    }
  }

  /** The key found is the only one. */
  lemma FindOnly<K(!new), V>(l: seq<Pair<K, V>>, eq: (K, K) -> bool, k: K, i: nat)
    requires Equivalence(eq) && Distinct(l, eq) && i < |l| && eq(l[i].key, k)
    ensures Find(l, eq, k) == i
  {
    var j := Find(l, eq, k);
    assert eq(l[j].key, l[i].key);
  }

  lemma {:induction false} FindSame<K(!new), V>(l: seq<Pair<K, V>>, eq: (K, K) -> bool, j: K, k: K)
    requires Equivalence(eq) && eq(j, k)
    ensures Find(l, eq, j) == Find(l, eq, k)
  {
    if l != [] {
      assert eq(l[0].key, j) <==> eq(l[0].key, k);
      FindSame(l[1..], eq, j, k);
    }
  }

  lemma {:induction false} FindByKeys<K, V>(l: seq<Pair<K, V>>, m: seq<Pair<K, V>>, eq: (K, K) -> bool, k: K)
    requires |l| == |m| && forall i | 0 <= i < |l| :: l[i].key == m[i].key
    ensures Find(l, eq, k) == Find(m, eq, k)
  {
    if l != [] { FindByKeys(l[1..], m[1..], eq, k); }
  }

  /** What is set is found, and no other key's value changes. */
  lemma SetThenFind<K(!new), V>(l: seq<Pair<K, V>>, eq: (K, K) -> bool, k: K, v: V, j: K)
    requires Equivalence(eq) && Distinct(l, eq)
    ensures var m := Set(l, eq, k, v);
      var a, b := Find(l, eq, j), Find(m, eq, j);
      Distinct(m, eq) && (if eq(j, k) then b >= 0 && m[b].val == v else a == b && (a >= 0 ==> m[b] == l[a]))
  {
    var m := Set(l, eq, k, v);
    assert Distinct(m, eq);
    if eq(j, k) { FindSame(l, eq, j, k); }
    if Find(l, eq, k) < 0 {
      FindAppend(l, [Pair(k, v)], eq, j);
    } else {
      FindByKeys(l, m, eq, j);
      FindOnlySame(l, eq, j, k);
    }
  }

  lemma FindOnlySame<K(!new), V>(l: seq<Pair<K, V>>, eq: (K, K) -> bool, j: K, k: K)
    requires Equivalence(eq) && Find(l, eq, k) >= 0
    ensures Find(l, eq, j) == Find(l, eq, k) ==> eq(j, k)
  {
    var i := Find(l, eq, k);
    assert eq(l[i].key, k);
  }

  /** Overwriting moves nothing: the keys are where they were. */
  lemma OverwriteKeepsPlace<K, V>(l: seq<Pair<K, V>>, eq: (K, K) -> bool, k: K, v: V)
    requires Find(l, eq, k) >= 0
    ensures var m := Set(l, eq, k, v);
      |m| == |l| && forall i | 0 <= i < |l| :: m[i].key == l[i].key && (i != Find(l, eq, k) ==> m[i] == l[i])
  {}

  /** What is deleted is not found, and nothing else changes. */
  lemma DeleteThenFind<K(!new), V>(l: seq<Pair<K, V>>, eq: (K, K) -> bool, k: K, j: K)
    requires Equivalence(eq) && Distinct(l, eq)
    ensures var m := Delete(l, eq, k);
      var a, b := Find(l, eq, j), Find(m, eq, j);
      Distinct(m, eq) && (if eq(j, k) then b < 0 else (a < 0 <==> b < 0) && (a >= 0 ==> m[b] == l[a]))
  {
    var m := Delete(l, eq, k);
    var i, a := Find(l, eq, k), Find(l, eq, j);
    if eq(j, k) { FindSame(l, eq, j, k); }
    if i >= 0 {
      assert forall p | 0 <= p < |m| :: m[p] == l[if p < i then p else p + 1];
      assert Distinct(m, eq);
      var b := Find(m, eq, j);
      if b >= 0 { FindOnly(l, eq, j, if b < i then b else b + 1); }
      if a >= 0 && a != i { FindOnly(m, eq, j, if a < i then a else a - 1); }
    }
  }

  /** A key set again after it was deleted goes last. */
  lemma SetAfterDelete<K(!new), V>(l: seq<Pair<K, V>>, eq: (K, K) -> bool, k: K, v: V)
    requires Equivalence(eq) && Distinct(l, eq)
    ensures Set(Delete(l, eq, k), eq, k, v) == Delete(l, eq, k) + [Pair(k, v)]
  {
    DeleteThenFind(l, eq, k, k);
  }
}
