/** Insertion-ordered hash maps and sets (runtime/src/coll.c): entries in the order they came, and
 *  an index over them.  They are the association lists they speed up. */
module HashMap {
  import opened Options
  import opened AssocList
  import opened Probing

  const NONE := -1

  datatype Entry<K, V> = Used(key: K, val: V, hash: nat) | Gone

  /** The entries in use, in order. */
  function Live<K, V>(ents: seq<Entry<K, V>>): seq<Pair<K, V>> {
    if ents == [] then []
    else
      var e := ents[|ents| - 1];
      Live(ents[..|ents| - 1]) + if e.Used? then [Pair(e.key, e.val)] else []
  }

  /* -------------------------------------------------------- entries and what they list */

  lemma LiveMore<K, V>(ents: seq<Entry<K, V>>, i: nat)
    requires i < |ents|
    ensures Live(ents[..i + 1]) == Live(ents[..i]) + if ents[i].Used? then [Pair(ents[i].key, ents[i].val)] else []
  {
    assert ents[..i + 1][..i] == ents[..i];
  }

  lemma {:induction false} LivePrefix<K, V>(ents: seq<Entry<K, V>>, i: nat)
    requires i <= |ents|
    ensures Live(ents[..i]) <= Live(ents)
  {
    if i == |ents| {
      assert ents[..i] == ents;
    } else {
      LivePrefix(ents[..|ents| - 1], i);
      assert ents[..|ents| - 1][..i] == ents[..i];
    }
  }

  lemma LiveAt<K, V>(ents: seq<Entry<K, V>>, i: nat)
    requires i < |ents| && ents[i].Used?
    ensures |Live(ents[..i])| < |Live(ents)|
    ensures Live(ents)[|Live(ents[..i])|] == Pair(ents[i].key, ents[i].val)
  {
    LiveMore(ents, i);
    LivePrefix(ents, i + 1);
  }

  lemma {:induction false} LiveFrom<K, V>(ents: seq<Entry<K, V>>, p: nat) returns (i: nat)
    requires p < |Live(ents)|
    ensures i < |ents| && ents[i].Used? && |Live(ents[..i])| == p
  {
    var n := |ents| - 1;
    if p < |Live(ents[..n])| {
      i := LiveFrom(ents[..n], p);
      assert ents[..n][..i] == ents[..i];
    } else {
      i := n;
    }
  }

  /** Changing one entry. */
  lemma {:induction false} LiveChanged<K, V>(ents: seq<Entry<K, V>>, i: nat, e: Entry<K, V>)
    requires i < |ents| && ents[i].Used?
    ensures var p := |Live(ents[..i])|;
      p < |Live(ents)|
      && Live(ents[i := e])
         == Live(ents)[..p] + (if e.Used? then [Pair(e.key, e.val)] else []) + Live(ents)[p + 1..]
  {
    var n := |ents| - 1;
    LiveAt(ents, i);
    if i == n {
      assert ents[i := e][..n] == ents[..n];
    } else {
      LiveChanged(ents[..n], i, e);
      LivePrefix(ents, n);
      assert ents[i := e][..n] == ents[..n][i := e];
      assert ents[..n][..i] == ents[..i];
    }
  }

  /** Keys differ, and hashes are those of the keys. */
  ghost predicate Keyed<K, V>(ents: seq<Entry<K, V>>, hash: K -> nat, eq: (K, K) -> bool) {
    && (forall i | 0 <= i < |ents| && ents[i].Used? :: ents[i].hash == hash(ents[i].key))
    && (forall i, j | 0 <= i < |ents| && 0 <= j < |ents| && i != j && ents[i].Used? && ents[j].Used? ::
          !eq(ents[i].key, ents[j].key))
  }

  /** Finding a key in the list is finding its entry. */
  lemma FindIs<K(!new), V>(ents: seq<Entry<K, V>>, hash: K -> nat, eq: (K, K) -> bool, k: K, i: nat)
    requires Keyed(ents, hash, eq) && Equivalence(eq)
    requires i < |ents| && ents[i].Used? && eq(ents[i].key, k)
    ensures Find(Live(ents), eq, k) == |Live(ents[..i])|
  {
    LiveAt(ents, i);
    var p := Find(Live(ents), eq, k);
    var j := LiveFrom(ents, p);
    LiveAt(ents, j);
  }

  lemma FindNone<K, V>(ents: seq<Entry<K, V>>, eq: (K, K) -> bool, k: K)
    requires forall i | 0 <= i < |ents| && ents[i].Used? :: !eq(ents[i].key, k)
    ensures Find(Live(ents), eq, k) == -1
  {
    var p := Find(Live(ents), eq, k);
    if p >= 0 {
      var i := LiveFrom(ents, p);
      LiveAt(ents, i);
    }
  }

  /* -------------------------------------------------------- the index */

  /** Entry e is k steps from its home, past slots that are not empty. */
  ghost predicate Sits(t: seq<int>, h: nat, k: nat, e: int)
    requires |t| > 0
  {
    k < |t| && t[At(h % |t|, k, |t|)] == e && Path(t, NONE, h % |t|, k)
  }

  ghost predicate Points<K, V>(ents: seq<Entry<K, V>>, t: seq<int>, m: nat) {
    forall s | 0 <= s < |t| && t[s] != NONE :: 0 <= t[s] < m <= |ents| && ents[t[s]].Used?
  }

  ghost predicate OneToOne(t: seq<int>) {
    forall r, s | 0 <= r < |t| && 0 <= s < |t| && r != s && t[r] != NONE :: t[r] != t[s]
  }

  /** The index has the entries in use below m, each where a probe for it comes. */
  ghost predicate Indexed<K, V>(ents: seq<Entry<K, V>>, t: seq<int>, m: nat) {
    && |t| > 0 && m <= |ents| && Points(ents, t, m) && OneToOne(t)
    && forall e | 0 <= e < m && ents[e].Used? :: exists k :: Sits(t, ents[e].hash, k, e)
  }

  lemma Placed<K, V>(ents: seq<Entry<K, V>>, t: seq<int>, m: nat, k: nat)
    requires Indexed(ents, t, m) && m < |ents| && ents[m].Used? && k < |t|
    requires Path(t, NONE, ents[m].hash % |t|, k) && t[At(ents[m].hash % |t|, k, |t|)] == NONE
    ensures Indexed(ents, t[At(ents[m].hash % |t|, k, |t|) := m], m + 1)
  {
    var s := At(ents[m].hash % |t|, k, |t|);
    var u := t[s := m];
    forall e | 0 <= e < m + 1 && ents[e].Used? ensures exists k :: Sits(u, ents[e].hash, k, e) {
      if e == m {
        PathStays(t, NONE, s, m, ents[m].hash % |t|, k);
        assert Sits(u, ents[m].hash, k, m);
      } else {
        var j :| Sits(t, ents[e].hash, j, e);
        PathStays(t, NONE, s, m, ents[e].hash % |t|, j);
        assert Sits(u, ents[e].hash, j, e);
      }
    }
  }

  /** The index depends on which entries are in use and on their hashes alone. */
  lemma SameIndex<K, V>(x: seq<Entry<K, V>>, y: seq<Entry<K, V>>, t: seq<int>, m: nat)
    requires Indexed(x, t, m) && m <= |y|
    requires forall e | 0 <= e < m :: x[e].Used? == y[e].Used? && (x[e].Used? ==> x[e].hash == y[e].hash)
    ensures Indexed(y, t, m)
  {
    forall e | 0 <= e < m && y[e].Used? ensures exists k :: Sits(t, y[e].hash, k, e) {
      var k :| Sits(t, x[e].hash, k, e);
      assert Sits(t, y[e].hash, k, e);
    }
  }

  /** Entry e is what a probe for k stops at. */
  predicate Hit<K, V>(ents: seq<Entry<K, V>>, eq: (K, K) -> bool, k: K, h: nat, e: int) {
    0 <= e < |ents| && ents[e].Used? && ents[e].hash == h && eq(ents[e].key, k)
  }

  /** No entry that a probe for k passed in its first steps is a hit. */
  ghost predicate NoHit<K, V>(ents: seq<Entry<K, V>>, eq: (K, K) -> bool, k: K, h: nat, t: seq<int>, steps: nat)
    requires |t| > 0 && steps <= |t|
  {
    forall j | 0 <= j < steps :: !Hit(ents, eq, k, h, t[At(h % |t|, j, |t|)])
  }

  /** An entry found for k, or the empty slot where it would go. */
  ghost predicate Answer<K, V>(ents: seq<Entry<K, V>>, eq: (K, K) -> bool, k: K, h: nat, t: seq<int>, slot: nat,
                               entry: int, steps: nat) {
    if entry >= 0 then
      entry < |ents| && ents[entry].Used? && eq(ents[entry].key, k) && Find(Live(ents), eq, k) == |Live(ents[..entry])|
    else
      Vacant(t, h, slot, steps) && Find(Live(ents), eq, k) == -1
      && forall i | 0 <= i < |ents| && ents[i].Used? :: !eq(ents[i].key, k)
  }

  ghost predicate Vacant(t: seq<int>, h: nat, slot: nat, steps: nat) {
    slot < |t| && steps < |t| && t[slot] == NONE && Passed(t, h, slot, steps)
  }

  ghost predicate Passed(t: seq<int>, h: nat, slot: nat, steps: nat) {
    |t| > 0 && Path(t, NONE, h % |t|, steps) && slot == At(h % |t|, steps, |t|)
  }

  /** Keys equal under eq have one hash; entries, keys and index fit together. */
  ghost predicate Right<K(!new), V>(ents: seq<Entry<K, V>>, t: seq<int>, hash: K -> nat, eq: (K, K) -> bool) {
    && Equivalence(eq) && (forall x, y | eq(x, y) :: hash(x) == hash(y))
    && Keyed(ents, hash, eq) && Indexed(ents, t, |ents|) && Roomy(t, |Live(ents)|)
  }

  ghost predicate Roomy(t: seq<int>, count: nat) {
    PowerOfTwo(|t|) && |Filled(t, NONE)| == count && 2 * count <= |t| && |t| > 0
  }

  lemma ProbeBegins(h: nat, t: seq<int>)
    requires |t| > 0
    ensures Passed(t, h, h % |t|, 0)
  {}

  lemma RoomyIs(t: seq<int>, count: nat)
    requires Roomy(t, count)
    ensures |t| > 0
  {}

  lemma ProbeStarts<K, V>(ents: seq<Entry<K, V>>, eq: (K, K) -> bool, k: K, h: nat, t: seq<int>)
    requires |t| > 0
    ensures Passed(t, h, h % |t|, 0) && NoHit(ents, eq, k, h, t, 0)
  {}

  lemma ProbeOn(h: nat, t: seq<int>, slot: nat, steps: nat, count: nat)
    requires Passed(t, h, slot, steps) && Roomy(t, count) && slot < |t| && t[slot] != NONE
    ensures steps + 1 <= |t| && Passed(t, h, (slot + 1) % |t|, steps + 1) && (slot + 1) % |t| < |t|
  {
    NotRound(t, NONE, h % |t|, steps);
    NextAt(h % |t|, steps, |t|);
  }

  lemma NoHitOn<K, V>(ents: seq<Entry<K, V>>, eq: (K, K) -> bool, k: K, h: nat, t: seq<int>, slot: nat, steps: nat)
    requires Passed(t, h, slot, steps) && steps < |t| && NoHit(ents, eq, k, h, t, steps)
    requires !Hit(ents, eq, k, h, t[slot])
    ensures NoHit(ents, eq, k, h, t, steps + 1)
  {}

  lemma PointsTo<K(!new), V>(ents: seq<Entry<K, V>>, t: seq<int>, hash: K -> nat, eq: (K, K) -> bool, s: nat)
    requires Right(ents, t, hash, eq) && s < |t| && t[s] != NONE
    ensures 0 <= t[s] < |ents| && ents[t[s]].Used?
  {}

  lemma ProbeHits<K(!new), V>(ents: seq<Entry<K, V>>, t: seq<int>, hash: K -> nat, eq: (K, K) -> bool, k: K, h: nat,
                              slot: nat, e: nat, steps: nat)
    requires Right(ents, t, hash, eq) && Hit(ents, eq, k, h, e)
    ensures Answer(ents, eq, k, h, t, slot, e, steps)
  {
    FindIs(ents, hash, eq, k, e);
  }

  /** A probe that came to an empty slot without a hit has missed nothing. */
  lemma ProbeMisses<K(!new), V>(ents: seq<Entry<K, V>>, t: seq<int>, hash: K -> nat, eq: (K, K) -> bool, k: K,
                                slot: nat, steps: nat)
    requires Right(ents, t, hash, eq) && Passed(t, hash(k), slot, steps) && slot < |t| && t[slot] == NONE
    requires NoHit(ents, eq, k, hash(k), t, steps)
    ensures Answer(ents, eq, k, hash(k), t, slot, -1, steps)
  {
    NotRound(t, NONE, hash(k) % |t|, steps);
    forall e | 0 <= e < |ents| && ents[e].Used? ensures !eq(ents[e].key, k) {
      Missed(ents, t, hash, eq, k, steps, e);
    }
    FindNone(ents, eq, k);
  }

  lemma Missed<K(!new), V>(ents: seq<Entry<K, V>>, t: seq<int>, hash: K -> nat, eq: (K, K) -> bool, k: K, steps: nat,
                           e: nat)
    requires Indexed(ents, t, |ents|) && Keyed(ents, hash, eq) && (forall x, y | eq(x, y) :: hash(x) == hash(y))
    requires steps < |t| && t[At(hash(k) % |t|, steps, |t|)] == NONE && NoHit(ents, eq, k, hash(k), t, steps)
    requires e < |ents| && ents[e].Used?
    ensures !eq(ents[e].key, k)
  {
    if ents[e].hash == hash(k) {
      var j: nat :| Sits(t, ents[e].hash, j, e);
      assert j <= steps;
      assert !Hit(ents, eq, k, hash(k), t[At(hash(k) % |t|, j, |t|)]);
    }
  }

  lemma Overwritten<K(!new), V>(ents: seq<Entry<K, V>>, t: seq<int>, hash: K -> nat, eq: (K, K) -> bool, e: nat, v: V)
    requires Right(ents, t, hash, eq) && e < |ents| && ents[e].Used?
    ensures var now := ents[e := ents[e].(val := v)];
      var p := |Live(ents[..e])|;
      p < |Live(ents)| && Live(now) == Live(ents)[p := Pair(Live(ents)[p].key, v)] && Right(now, t, hash, eq)
  {
    LiveAt(ents, e);
    LiveChanged(ents, e, ents[e].(val := v));
    SameIndex(ents, ents[e := ents[e].(val := v)], t, |ents|);
  }

  lemma Appended<K(!new), V>(ents: seq<Entry<K, V>>, t: seq<int>, hash: K -> nat, eq: (K, K) -> bool, k: K, v: V,
                             slot: nat, steps: nat)
    requires Right(ents, t, hash, eq) && Vacant(t, hash(k), slot, steps)
    requires forall i | 0 <= i < |ents| && ents[i].Used? :: !eq(ents[i].key, k)
    ensures var now := ents + [Used(k, v, hash(k))];
      var u := t[slot := |ents|];
      Live(now) == Live(ents) + [Pair(k, v)] && Keyed(now, hash, eq) && Indexed(now, u, |now|)
      && |Filled(u, NONE)| == |Live(now)|
  {
    var now := ents + [Used(k, v, hash(k))];
    assert now[..|ents|] == ents;
    SameIndex(ents, now, t, |ents|);
    Placed(now, t, |ents|, steps);
    FilledMore(t, NONE, slot, |ents|);
  }

  lemma Deleted<K(!new), V>(ents: seq<Entry<K, V>>, hash: K -> nat, eq: (K, K) -> bool, e: nat)
    requires Keyed(ents, hash, eq) && e < |ents| && ents[e].Used?
    ensures var now := ents[e := Gone];
      var p := |Live(ents[..e])|;
      p < |Live(ents)| && Live(now) == Live(ents)[..p] + Live(ents)[p + 1..] && Keyed(now, hash, eq)
  {
    LiveAt(ents, e);
    LiveChanged(ents, e, Gone);
  }

  lemma RightRoomy<K(!new), V>(ents: seq<Entry<K, V>>, t: seq<int>, hash: K -> nat, eq: (K, K) -> bool)
    requires Right(ents, t, hash, eq)
    ensures Roomy(t, |Live(ents)|) && Keyed(ents, hash, eq)
  {}

  lemma RightFrom<K(!new), V>(x: seq<Entry<K, V>>, t: seq<int>, y: seq<Entry<K, V>>, u: seq<int>, hash: K -> nat,
                              eq: (K, K) -> bool)
    requires Right(x, t, hash, eq) && Keyed(y, hash, eq) && Indexed(y, u, |y|) && Roomy(u, |Live(y)|)
    ensures Right(y, u, hash, eq)
  {}

  lemma Doubled(n: nat)
    requires PowerOfTwo(n) && n > 0
    ensures PowerOfTwo(2 * n)
  {}

  lemma NoneIndexed<K, V>(ents: seq<Entry<K, V>>, t: seq<int>)
    requires |t| > 0 && forall s | 0 <= s < |t| :: t[s] == NONE
    ensures Indexed(ents, t, 0) && |Live(ents[..0])| == 0
  {}

  lemma IndexedMore<K, V>(ents: seq<Entry<K, V>>, t: seq<int>, i: nat)
    requires i < |ents| && Indexed(ents, t, i) && ents[i].Gone?
    ensures Indexed(ents, t, i + 1)
  {}

  lemma EntryIn<K, V>(ents: seq<Entry<K, V>>, t: seq<int>, i: nat, s: nat, k: nat, count: nat)
    requires i < |ents| && ents[i].Used? && Indexed(ents, t, i) && Roomy(t, count)
    requires Passed(t, ents[i].hash, s, k) && s < |t| && t[s] == NONE
    ensures Indexed(ents, t[s := i], i + 1) && |Filled(t[s := i], NONE)| == count + 1
  {
    NotRound(t, NONE, ents[i].hash % |t|, k);
    Placed(ents, t, i, k);
    FilledMore(t, NONE, s, i);
  }

  /* -------------------------------------------------------- the map */

  class Map<K(!new), V> {
    const hash: K -> nat
    const eq: (K, K) -> bool
    const isSet: bool
    const none: V
    var ents: seq<Entry<K, V>>
    var idx: array<int>
    var count: nat

    ghost predicate Valid()
      reads this, idx
    {
      Right(ents, idx[..], hash, eq) && count == |Live(ents)|
    }

    /** The association list this map is. */
    ghost function Contents(): seq<Pair<K, V>>
      reads this
    {
      Live(ents)
    }

    constructor (hash: K -> nat, eq: (K, K) -> bool, isSet: bool, none: V)
      requires Equivalence(eq) && forall x, y | eq(x, y) :: hash(x) == hash(y)
      ensures Valid() && Contents() == [] && fresh(idx)
      ensures this.hash == hash && this.eq == eq && this.isSet == isSet && this.none == none
    {
      this.hash, this.eq, this.isSet, this.none := hash, eq, isSet, none;
      ents, count := [], 0;
      idx := new int[16](_ => NONE);
      new;
      NoneFilled(idx[..], NONE);
      assert PowerOfTwo(2) && PowerOfTwo(4) && PowerOfTwo(8);
    }

    /** rehash's loop, and delete's: every entry in use goes into an index emptied first. */
    method Reindex()
      requires PowerOfTwo(idx.Length) && 2 * |Live(ents)| <= idx.Length && idx.Length > 0
      modifies idx
      ensures Indexed(ents, idx[..], |ents|) && Roomy(idx[..], |Live(ents)|)
    {
      hide PowerOfTwo, Live, Indexed, Path;
      var n := idx.Length;
      for i := 0 to n
        invariant forall s | 0 <= s < i :: idx[s] == NONE
      {
        idx[i] := NONE;
      }
      NoneFilled(idx[..], NONE);
      NoneIndexed(ents, idx[..]);
      for i := 0 to |ents|
        invariant Indexed(ents, idx[..], i) && |Filled(idx[..], NONE)| == |Live(ents[..i])|
      {
        LiveMore(ents, i);
        LivePrefix(ents, i);
        if ents[i].Used? {
          Enter(i, |Live(ents[..i])|);
        } else {
          IndexedMore(ents, idx[..], i);
        }
      }
      assert ents[..|ents|] == ents;
    }

    /** The first empty slot from entry i's home on is i's. */
    method Enter(i: nat, ghost count: nat)
      requires i < |ents| && ents[i].Used? && Indexed(ents, idx[..], i) && Roomy(idx[..], count)
      modifies idx
      ensures Indexed(ents, idx[..], i + 1) && |Filled(idx[..], NONE)| == count + 1
    {
      hide Path, Indexed, Roomy, Passed;
      var n := idx.Length;
      ghost var t, h := idx[..], ents[i].hash;
      RoomyIs(t, count);
      var s: nat := ents[i].hash % n;
      ghost var k: nat := 0;
      ProbeBegins(h, t);
      while idx[s] != NONE
        invariant s < n && idx[..] == t && Passed(t, h, s, k)
        decreases n - k
      {
        ProbeOn(h, t, s, k, count);
        s := (s + 1) % n;
        k := k + 1;
      }
      EntryIn(ents, t, i, s, k, count);
      idx[s] := i;
      assert idx[..] == t[s := i as int];
    }

    /** find_slot: the entry of a key equal to k, or where one would go. */
    method FindSlot(k: K, h: nat) returns (slot: nat, entry: int, ghost steps: nat)
      requires Valid() && h == hash(k)
      ensures -1 <= entry && slot < idx.Length && Answer(ents, eq, k, h, idx[..], slot, entry, steps)
    {
      hide Right, Path, Passed, NoHit, Answer;
      ghost var t := idx[..];
      RightRoomy(ents, t, hash, eq);
      var n := idx.Length;
      slot := h % n;
      steps := 0;
      ProbeStarts(ents, eq, k, h, t);
      while idx[slot] != NONE
        invariant slot < n && steps <= n && Passed(t, h, slot, steps) && NoHit(ents, eq, k, h, t, steps)
        decreases n - steps
      {
        var e := idx[slot];
        assert t[slot] == e;
        PointsTo(ents, t, hash, eq, slot);
        if ents[e].hash == h && eq(ents[e].key, k) {
          ProbeHits(ents, t, hash, eq, k, h, slot, e, steps);
          return slot, e, steps;
        }
        ProbeOn(h, t, slot, steps, |Live(ents)|);
        NoHitOn(ents, eq, k, h, t, slot, steps);
        slot := (slot + 1) % n;
        steps := steps + 1;
      }
      ProbeMisses(ents, t, hash, eq, k, slot, steps);
      entry := -1;
    }

    method Set(k: K, v: V)
      requires Valid()
      modifies this, idx
      ensures Valid() && (idx == old(idx) || fresh(idx))
      ensures Contents()
           == if isSet && Find(old(Contents()), eq, k) >= 0 then old(Contents())
              else AssocList.Set(old(Contents()), eq, k, if isSet then none else v)
    {
      hide Right, Live, Vacant;
      var h := hash(k);
      var slot, entry;
      ghost var steps;
      slot, entry, steps := FindSlot(k, h);
      if entry >= 0 {
        if isSet { return; }
        Overwritten(ents, idx[..], hash, eq, entry, v);
        ents := ents[entry := ents[entry].(val := v)];
        return;
      }
      Append(k, if isSet then none else v, h, slot, steps);
    }

    method Append(k: K, v: V, h: nat, slot: nat, ghost steps: nat)
      requires Valid() && h == hash(k) && forall i | 0 <= i < |ents| && ents[i].Used? :: !eq(ents[i].key, k)
      requires slot < idx.Length && Vacant(idx[..], h, slot, steps)
      modifies this, idx
      ensures Valid() && (idx == old(idx) || fresh(idx)) && Contents() == old(Contents()) + [Pair(k, v)]
    {
      hide Right, Live, Vacant, Indexed, Keyed, PowerOfTwo;
      ghost var was, t := ents, idx[..];
      RightRoomy(ents, t, hash, eq);
      Appended(ents, t, hash, eq, k, v, slot, steps);
      var e := |ents|;
      ents := ents + [Used(k, v, h)];
      idx[slot] := e;
      assert idx[..] == t[slot := e as int];
      count := count + 1;
      if count * 2 > idx.Length {
        Doubled(idx.Length);
        idx := new int[2 * idx.Length];
        Reindex();
      }
      RightFrom(was, t, ents, idx[..], hash, eq);
    }

    method Get(k: K) returns (ok: bool, v: V)
      requires Valid()
      ensures ok <==> Find(Contents(), eq, k) >= 0
      ensures ok ==> v == Contents()[Find(Contents(), eq, k)].val
    {
      var _, entry, _ := FindSlot(k, hash(k));
      if entry < 0 { return false, none; }
      LiveAt(ents, entry);
      return true, ents[entry].val;
    }

    method Has(k: K) returns (ok: bool)
      requires Valid()
      ensures ok <==> Find(Contents(), eq, k) >= 0
    {
      var _, entry, _ := FindSlot(k, hash(k));
      ok := entry >= 0;
    }

    method Delete(k: K)
      requires Valid()
      modifies this, idx
      ensures Valid() && idx == old(idx) && Contents() == AssocList.Delete(old(Contents()), eq, k)
    {
      hide Right, Live, Vacant, Indexed, Keyed, PowerOfTwo;
      ghost var was, t := ents, idx[..];
      RightRoomy(ents, t, hash, eq);
      var _, entry, _ := FindSlot(k, hash(k));
      if entry < 0 { return; }
      Deleted(ents, hash, eq, entry);
      ents := ents[entry := Gone];
      count := count - 1;
      Reindex();
      RightFrom(was, t, ents, idx[..], hash, eq);
    }

    method Keys() returns (ks: seq<K>)
      requires Valid()
      ensures |ks| == |Contents()| && forall i | 0 <= i < |ks| :: ks[i] == Contents()[i].key
    {
      ks := [];
      for i := 0 to |ents|
        invariant |ks| == |Live(ents[..i])| && forall j | 0 <= j < |ks| :: ks[j] == Live(ents[..i])[j].key
      {
        LiveMore(ents, i);
        if ents[i].Used? { ks := ks + [ents[i].key]; }
      }
      assert ents[..|ents|] == ents;
    }

    method Values() returns (vs: seq<V>)
      requires Valid()
      ensures |vs| == |Contents()| && forall i | 0 <= i < |vs| :: vs[i] == Contents()[i].val
    {
      vs := [];
      for i := 0 to |ents|
        invariant |vs| == |Live(ents[..i])| && forall j | 0 <= j < |vs| :: vs[j] == Live(ents[..i])[j].val
      {
        LiveMore(ents, i);
        if ents[i].Used? { vs := vs + [ents[i].val]; }
      }
      assert ents[..|ents|] == ents;
    }

    /** A step of iteration from cursor `at`: the first entry not passed yet, or the end. */
    method Next(at: nat) returns (p: Option<Pair<K, V>>, after: nat)
      requires at <= |ents|
      ensures at <= after <= |ents|
      ensures p.None? <==> |Live(ents[..at])| == |Contents()|
      ensures p.Some? ==> |Live(ents[..at])| < |Contents()| && p.value == Contents()[|Live(ents[..at])|]
      ensures p.Some? ==> |Live(ents[..after])| == |Live(ents[..at])| + 1
    {
      after := at;
      while after < |ents| && ents[after].Gone?
        invariant at <= after <= |ents| && Live(ents[..after]) == Live(ents[..at])
      {
        LiveMore(ents, after);
        after := after + 1;
      }
      if after >= |ents| {
        assert ents[..after] == ents;
        return None, after;
      }
      LiveAt(ents, after);
      LiveMore(ents, after);
      p := Some(Pair(ents[after].key, ents[after].val));
      after := after + 1;
    }
  }
}
