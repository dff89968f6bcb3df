/** Linear probing in a table that wraps round (runtime/src/coll.c, runtime/src/ffi.c). */
module Probing {
  /** The slot k steps from h, in a table of n.  The source masks with n - 1, n a power of two. */
  function At(h: nat, k: nat, n: nat): (s: nat)
    requires h < n && k <= n
    ensures s < n
  {
    if h + k < n then h + k else h + k - n
  }

  ghost predicate PowerOfTwo(n: nat) {
    n == 1 || (n > 1 && n % 2 == 0 && PowerOfTwo(n / 2))
  }

  /** The first k slots from h on are not empty. */
  ghost predicate Path(t: seq<int>, empty: int, h: nat, k: nat)
    requires h < |t|
  {
    k <= |t| && forall j | 0 <= j < k :: t[At(h, j, |t|)] != empty
  }

  /** From anywhere, a probe comes to any slot. */
  lemma Reaches(h: nat, s: nat, n: nat) returns (k: nat)
    requires h < n && s < n
    ensures k < n && At(h, k, n) == s
  {
    k := if h <= s then s - h else s + n - h;
  }

  lemma NextAt(h: nat, k: nat, n: nat)
    requires h < n && k < n
    ensures At(h, k + 1, n) == (At(h, k, n) + 1) % n
  {}

  ghost function Filled(t: seq<int>, empty: int): set<nat> {
    set s: nat | s < |t| && t[s] != empty
  }

  ghost function Slots(n: nat): (r: set<nat>)
    ensures |r| == n && forall s: nat :: s in r <==> s < n
  {
    if n == 0 then {} else Slots(n - 1) + {n - 1}
  }

  lemma AllFilled(t: seq<int>, empty: int)
    requires forall s | 0 <= s < |t| :: t[s] != empty
    ensures |Filled(t, empty)| == |t|
  {
    assert Filled(t, empty) == Slots(|t|);
  }

  /** In a table that is not full, a probe that has met no empty slot is not all the way round. */
  lemma NotRound(t: seq<int>, empty: int, h: nat, k: nat)
    requires h < |t| && |Filled(t, empty)| < |t| && Path(t, empty, h, k)
    ensures k < |t|
  {
    if k == |t| {
      forall s | 0 <= s < |t| ensures t[s] != empty {
        var j := Reaches(h, s, |t|);
      }
      AllFilled(t, empty);
    }
  }

  lemma NoneFilled(t: seq<int>, empty: int)
    requires forall s | 0 <= s < |t| :: t[s] == empty
    ensures Filled(t, empty) == {}
  {}

  /** Filling an empty slot. */
  lemma FilledMore(t: seq<int>, empty: int, s: nat, v: int)
    requires s < |t| && t[s] == empty && v != empty
    ensures |Filled(t[s := v], empty)| == |Filled(t, empty)| + 1
  {
    assert Filled(t[s := v], empty) == Filled(t, empty) + {s};
  }

  /** A path stays one when a slot gets another value that is not empty. */
  lemma PathStays(t: seq<int>, empty: int, s: nat, v: int, h: nat, k: nat)
    requires s < |t| && v != empty && h < |t| && Path(t, empty, h, k)
    ensures Path(t[s := v], empty, h, k)
  {}
}
