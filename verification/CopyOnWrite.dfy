/** Copy-on-write over the object heap (runtime/src/types.c): writes through one name act as
 *  updates of a value, and are not seen through any other. */
module CopyOnWrite {
  import opened HeapModel
  import opened ValueMeaning
  import opened ObjectHeap

  /** A Box and a newtype hold one value. */
  predicate Shaped(cells: seq<Cell>) {
    forall a | 0 <= a < |cells| && cells[a].Obj? && (cells[a].kind.Box? || cells[a].kind.Newtype?) ::
      |cells[a].kids| == 1
  }

  /** The heap between two operations: counts and shapes are right; `held` is every reference
   *  outside the objects. */
  ghost predicate Counted(cells: seq<Cell>, held: seq<Value>) {
    Balanced(cells, held) && Positive(cells) && Shaped(cells)
  }

  ghost predicate Sound(cells: seq<Cell>, held: seq<Value>) {
    Counted(cells, held) && Acyclic(cells)
  }

  ghost predicate Idle(h: Heap, held: seq<Value>)
    reads h
  {
    !h.freeing && h.dead == [] && Counted(h.cells, held)
  }

  ghost predicate Ready(h: Heap, held: seq<Value>)
    reads h
  {
    Idle(h, held) && Acyclic(h.cells)
  }

  predicate CowKind(k: Kind) {
    !k.Other?
  }

  /* -------------------------------------------------------- retain, release, store */

  function Raised(cells: seq<Cell>, v: Value): seq<Cell>
    requires v.Ref? ==> Live(cells, v.a)
  {
    if v.Ref? then cells[v.a := cells[v.a].(rc := cells[v.a].rc + 1)] else cells
  }

  lemma RaisedSound(cells: seq<Cell>, held: seq<Value>, v: Value)
    requires Sound(cells, held) && (v.Ref? ==> Live(cells, v.a))
    ensures Sound(Raised(cells, v), held + [v]) && Grown(cells, Raised(cells, v))
  {
    RaisedCounted(cells, held, v);
    hide Counted, Raised;
    var rank :| Ranked(cells, rank);
    GrownRanked(cells, Raised(cells, v), rank);
  }

  lemma RaisedCounted(cells: seq<Cell>, held: seq<Value>, v: Value)
    requires Counted(cells, held) && (v.Ref? ==> Live(cells, v.a))
    ensures Counted(Raised(cells, v), held + [v]) && Grown(cells, Raised(cells, v))
    ensures |Raised(cells, v)| == |cells|
  {
    var up := Raised(cells, v);
    hide Occ, InDeg;
    forall a: nat ensures InDeg(up, a) == InDeg(cells, a)
    && Occ(held + [v], a) == Occ(held, a) + if v == Ref(a) then 1 else 0 {
      OccAppend(held, [v], a);
      OccOne(v, a);
      if v.Ref? { InDegUpdate(cells, v.a, up[v.a], a); }
    }
  }

  lemma GrownRanked(cells: seq<Cell>, after: seq<Cell>, rank: seq<nat>)
    requires Ranked(cells, rank) && Grown(cells, after) && |after| == |cells|
    ensures Ranked(after, rank)
  {
    forall a, k | 0 <= a < |after| && after[a].Obj? && 0 <= k < |after[a].kids| && after[a].kids[k].Ref?
      ensures Live(after, after[a].kids[k].a) && rank[after[a].kids[k].a] < rank[a]
    {
      assert after[a].kids[k] == cells[a].kids[k];
    }
  }

  method Retain(h: Heap, v: Value, ghost held: seq<Value>)
    requires Ready(h, held) && (v.Ref? ==> Live(h.cells, v.a))
    modifies h
    ensures Ready(h, held + [v]) && h.cells == Raised(old(h.cells), v) && Grown(old(h.cells), h.cells)
  {
    RaisedSound(h.cells, held, v);
    if v.Ref? {
      h.cells := h.cells[v.a := h.cells[v.a].(rc := h.cells[v.a].rc + 1)];
    }
  }

  lemma PrunedShaped(before: seq<Cell>, after: seq<Cell>)
    requires Pruned(before, after) && Shaped(before)
    ensures Shaped(after)
  {}

  /** vl_release between two operations. */
  method Release(h: Heap, v: Value, ghost held: seq<Value>)
    requires Idle(h, held + [v]) && (v.Ref? ==> Live(h.cells, v.a))
    modifies h
    ensures Idle(h, held) && Pruned(old(h.cells), h.cells) && Kept(old(h.cells), h.cells)
    ensures Acyclic(old(h.cells)) ==> Acyclic(h.cells)
    ensures v.Ref? && old(h.cells)[v.a].rc > 1 ==> h.cells == Lowered(old(h.cells), v.a)
  {
    hide Pruned, Balanced, Shaped, Acyclic, Reached, Kept, Parked, EachOnce;
    QuietParked(h.cells);
    ghost var before := h.cells;
    h.Release(v, held, {});
    PrunedKept(before, h.cells, held);
    PrunedShaped(before, h.cells);
    PrunedAcyclic(before, h.cells, held);
  }

  lemma QuietParked(cells: seq<Cell>)
    requires Positive(cells)
    ensures Parked(cells, [], {})
  {}

  lemma PrunedAcyclic(before: seq<Cell>, after: seq<Cell>, held: seq<Value>)
    requires Pruned(before, after) && Balanced(after, held)
    ensures Acyclic(before) ==> Acyclic(after)
  {
    if Acyclic(before) {
      var rank :| Ranked(before, rank);
      PrunedRanked(before, after, held, rank);
    }
  }

  lemma PutBalanced(cells: seq<Cell>, held: seq<Value>, p: nat, i: nat, v: Value)
    requires Balanced(cells, held + [v]) && Live(cells, p) && i < |cells[p].kids|
    ensures Balanced(Put(cells, p, i, v), held + [cells[p].kids[i]])
  {
    hide Occ, InDeg;
    var after, old_ := Put(cells, p, i, v), cells[p].kids[i];
    forall a: nat ensures InDeg(after, a) + Occ(held + [old_], a) == InDeg(cells, a) + Occ(held + [v], a) {
      InDegUpdate(cells, p, after[p], a);
      OccUpdate(cells[p].kids, i, v, a);
      OccAppend(held, [old_], a);
      OccAppend(held, [v], a);
    }
  }

  lemma PutCounted(cells: seq<Cell>, held: seq<Value>, p: nat, i: nat, v: Value)
    requires Counted(cells, held + [v]) && Live(cells, p) && i < |cells[p].kids|
    ensures Counted(Put(cells, p, i, v), held + [cells[p].kids[i]])
    ensures cells[p].kids[i].Ref? ==> Live(Put(cells, p, i, v), cells[p].kids[i].a)
  {
    hide Balanced;
    PutBalanced(cells, held, p, i, v);
    var w := cells[p].kids[i];
    assert w in held + [w];
    if w.Ref? { Held(Put(cells, p, i, v), held + [w], w.a); }
  }

  /** vl_set on slot i of object p. */
  method SetSlot(h: Heap, p: nat, i: nat, v: Value, ghost held: seq<Value>)
    requires Idle(h, held + [v]) && Live(h.cells, p) && i < |h.cells[p].kids|
    modifies h
    ensures Idle(h, held) && Pruned(Put(old(h.cells), p, i, v), h.cells) && Kept(Put(old(h.cells), p, i, v), h.cells)
    ensures Acyclic(Put(old(h.cells), p, i, v)) ==> Acyclic(h.cells)
    ensures var w := old(h.cells[p].kids[i]);
      w.Ref? && w.a != p && Live(old(h.cells), w.a) && old(h.cells)[w.a].rc > 1 ==>
        h.cells == Lowered(Put(old(h.cells), p, i, v), w.a)
  {
    var w := h.cells[p].kids[i];
    PutCounted(h.cells, held, p, i, v);
    h.cells := h.cells[p := h.cells[p].(kids := h.cells[p].kids[i := v])];
    Release(h, w, held);
  }

  /* -------------------------------------------------------- shallow copies */

  /** One more object, holding the references in hand. */
  lemma AllocBalanced(cells: seq<Cell>, held: seq<Value>, kind: Kind, kids: seq<Value>)
    requires Balanced(cells, held + kids)
    ensures Balanced(cells + [Obj(1, kind, kids)], held + [Ref(|cells|)])
  {
    hide Occ, InDeg;
    var c := Obj(1, kind, kids);
    forall a: nat ensures InDeg(cells + [c], a) + Occ(held + [Ref(|cells|)], a)
      == InDeg(cells, a) + Occ(held + kids, a) + if a == |cells| then 1 else 0 {
      InDegAppend(cells, c, a);
      OccAppend(held, kids, a);
      OccAppend(held, [Ref(|cells|)], a);
      OccOne(Ref(|cells|), a);
    }
  }

  lemma AllocRanked(cells: seq<Cell>, rank: seq<nat>, c: Cell, n: nat)
    requires Ranked(cells, rank) && c.Obj?
    requires forall k | 0 <= k < |c.kids| && c.kids[k].Ref? :: Live(cells, c.kids[k].a) && rank[c.kids[k].a] < n
    ensures Ranked(cells + [c], rank + [n])
  {
    var after := cells + [c];
    forall a, k | 0 <= a < |after| && after[a].Obj? && 0 <= k < |after[a].kids| && after[a].kids[k].Ref?
      ensures Live(after, after[a].kids[k].a) && (rank + [n])[after[a].kids[k].a] < (rank + [n])[a]
    {
      if a < |cells| { assert after[a].kids[k] == cells[a].kids[k]; }
    }
  }

  /** A new object over references in hand, none of which dangles. */
  method New(h: Heap, kind: Kind, kids: seq<Value>, ghost held: seq<Value>) returns (c: nat)
    requires Ready(h, held + kids) && (kind.Box? || kind.Newtype? ==> |kids| == 1)
    modifies h
    ensures c == |old(h.cells)| && h.cells == old(h.cells) + [Obj(1, kind, kids)]
    ensures Ready(h, held + [Ref(c)])
  {
    AllocSound(h.cells, held, kind, kids);
    c := |h.cells|;
    h.cells := h.cells + [Obj(1, kind, kids)];
  }

  lemma AllocSound(cells: seq<Cell>, held: seq<Value>, kind: Kind, kids: seq<Value>)
    requires Sound(cells, held + kids) && (kind.Box? || kind.Newtype? ==> |kids| == 1)
    ensures Sound(cells + [Obj(1, kind, kids)], held + [Ref(|cells|)])
  {
    hide Balanced;
    AllocBalanced(cells, held, kind, kids);
    var rank :| Ranked(cells, rank);
    var m := MaxRank(rank);
    forall k | 0 <= k < |kids| && kids[k].Ref? ensures Live(cells, kids[k].a) && rank[kids[k].a] < m + 1 {
      assert (held + kids)[|held| + k] == kids[k];
      Held(cells, held + kids, kids[k].a);
    }
    AllocRanked(cells, rank, Obj(1, kind, kids), m + 1);
  }

  /** struct_shallow_copy and container_shallow_copy: every field or element retained. */
  method ShallowCopy(h: Heap, a: nat, ghost held: seq<Value>) returns (c: nat)
    requires Ready(h, held) && Live(h.cells, a)
    modifies h
    ensures c == |old(h.cells)| && |h.cells| == c + 1 && Grown(old(h.cells), h.cells)
    ensures h.cells[c] == Obj(1, old(h.cells)[a].kind, old(h.cells)[a].kids)
    ensures Ready(h, held + [Ref(c)])
  {
    hide Counted, Acyclic, Grown;
    var kids, kind := h.cells[a].kids, h.cells[a].kind;
    GrownSelf(h.cells);
    assert held + kids[..0] == held;
    var i := 0;
    while i < |kids|
      invariant i <= |kids| && Ready(h, held + kids[..i]) && Grown(old(h.cells), h.cells) && |h.cells| == |old(h.cells)|
    {
      KidLives(old(h.cells), h.cells, held, a, i);
      ghost var c0 := h.cells;
      Retain(h, kids[i], held + kids[..i]);
      GrownThrough(old(h.cells), c0, h.cells);
      assert held + kids[..i + 1] == (held + kids[..i]) + [kids[i]];
      i := i + 1;
    }
    assert kids[..i] == kids;
    CopyShape(old(h.cells), held, a);
    ghost var c1 := h.cells;
    c := New(h, kind, kids, held);
    GrownAppend(old(h.cells), c1, h.cells[c]);
  }

  lemma GrownSelf(cells: seq<Cell>)
    ensures Grown(cells, cells)
  {}

  lemma GrownAppend(x: seq<Cell>, y: seq<Cell>, c: Cell)
    requires Grown(x, y)
    ensures Grown(x, y + [c])
  {}

  lemma KidLives(before: seq<Cell>, now: seq<Cell>, held: seq<Value>, a: nat, i: nat)
    requires Sound(before, held) && Live(before, a) && i < |before[a].kids| && Grown(before, now)
    ensures before[a].kids[i].Ref? ==> Live(now, before[a].kids[i].a)
  {
    var rank :| Ranked(before, rank);
  }

  lemma CopyShape(cells: seq<Cell>, held: seq<Value>, a: nat)
    requires Sound(cells, held) && Live(cells, a)
    ensures cells[a].kind.Box? || cells[a].kind.Newtype? ==> |cells[a].kids| == 1
  {}

  /* -------------------------------------------------------- vl_cow_unique */

  lemma {:induction false} GrownInDeg(before: seq<Cell>, after: seq<Cell>, a: nat)
    requires Grown(before, after) && |after| == |before|
    ensures InDeg(after, a) == InDeg(before, a)
  {
    if before != [] {
      assert Kids(after[0]) == Kids(before[0]);
      GrownInDeg(before[1..], after[1..], a);
    }
  }

  predicate StructLike(k: Kind) {
    k.Struct? || k.Newtype?
  }

  /** u is a new object like v, holding the same; the others differ in their counts only. */
  predicate PlainCopy(before: seq<Cell>, after: seq<Cell>, v: nat, u: nat) {
    && Live(before, v) && u == |before| && |after| == u + 1 && Grown(before, after)
    && after[u] == Obj(1, before[v].kind, before[v].kids)
  }

  /** u is a new Box over a new object like the one, w, that the Box v holds. */
  predicate BoxCopy(before: seq<Cell>, after: seq<Cell>, v: nat, w: nat, u: nat) {
    && Live(before, v) && Live(before, w) && before[v].kind.Box? && before[v].kids == [Ref(w)]
    && StructLike(before[w].kind)
    && u == |before| + 1 && |after| == u + 1 && Grown(before, after)
    && after[|before|] == Obj(1, before[w].kind, before[w].kids) && after[u] == Obj(1, Box, [Ref(|before|)])
  }

  /** What vl_cow_unique makes of a shared v. */
  predicate Uniqued(before: seq<Cell>, after: seq<Cell>, v: nat, u: nat) {
    Live(before, v)
    && if before[v].kind.Box? && Holds(before, v) then BoxCopy(before, after, v, before[v].kids[0].a, u)
       else PlainCopy(before, after, v, u)
  }

  /** The object v holds one struct or newtype. */
  predicate Holds(cells: seq<Cell>, v: nat)
    requires Live(cells, v)
  {
    |cells[v].kids| == 1 && cells[v].kids[0].Ref? && Live(cells, cells[v].kids[0].a)
    && StructLike(cells[cells[v].kids[0].a].kind)
  }

  lemma CopyTwins(cells: seq<Cell>, v: nat, u: nat)
    requires Live(cells, v) && Live(cells, u) && cells[u].kind == cells[v].kind && cells[u].kids == cells[v].kids
    ensures Twins(cells, Ref(v), Ref(u))
  {}

  lemma BoxTwins(cells: seq<Cell>, v: nat, w: nat, u: nat, c: nat)
    requires Live(cells, v) && Live(cells, w) && Live(cells, u) && Live(cells, c)
    requires cells[v].kind == cells[u].kind && cells[v].kids == [Ref(w)] && cells[u].kids == [Ref(c)]
    requires cells[w].kind == cells[c].kind && cells[w].kids == cells[c].kids
    ensures Twins(cells, Ref(v), Ref(u))
  {
    forall t | Means(cells, Ref(v), t) ensures Means(cells, Ref(u), t) {
      assert Means(cells, cells[v].kids[0], t.kids[0]);
      assert Means(cells, Ref(c), t.kids[0]);
    }
  }

  lemma UniquedTwins(before: seq<Cell>, after: seq<Cell>, v: nat, u: nat)
    requires Uniqued(before, after, v, u)
    ensures Live(after, v) && Live(after, u) && Twins(after, Ref(v), Ref(u)) && after[u].rc == 1 && u >= |before|
  {
    hide Means, Twins;
    if before[v].kind.Box? && Holds(before, v) {
      BoxTwins(after, v, before[v].kids[0].a, u, |before|);
    } else {
      CopyTwins(after, v, u);
    }
  }

  /** vl_cow_unique and vl_box_unique.  v is returned, retained, unless it is held more than n
   *  times; then the result is a new object of its own with the same meaning. */
  method CowUnique(h: Heap, v: Value, n: nat, ghost held: seq<Value>) returns (u: Value)
    requires Ready(h, held) && (v.Ref? ==> Live(h.cells, v.a))
    modifies h
    ensures Ready(h, held + [u]) && Grown(old(h.cells), h.cells) && Kept(old(h.cells), h.cells)
    ensures v.Plain? || !CowKind(old(h.cells)[v.a].kind) || old(h.cells)[v.a].rc <= n ==>
              u == v && h.cells == Raised(old(h.cells), v)
    ensures v.Ref? && CowKind(old(h.cells)[v.a].kind) && old(h.cells)[v.a].rc > n ==>
              u.Ref? && Uniqued(old(h.cells), h.cells, v.a, u.a)
  {
    hide Counted, Acyclic, Grown, Kept;
    ghost var before := h.cells;
    if v.Plain? || h.cells[v.a].rc <= n || h.cells[v.a].kind.Other? {
      Retain(h, v, held);
      GrownKept(before, h.cells);
      return v;
    }
    if h.cells[v.a].kind.Box? {
      CopyShape(h.cells, held, v.a);
      KidLives(before, before, held, v.a, 0) by { GrownSelf(before); }
      var inner := h.cells[v.a].kids[0];
      if inner.Ref? && (h.cells[inner.a].kind.Struct? || h.cells[inner.a].kind.Newtype?) {
        var c := ShallowCopy(h, inner.a, held);
        ghost var one := h.cells;
        var b := New(h, Box, [Ref(c)], held);
        u := Ref(b);
        GrownAppend(before, one, h.cells[b]);
      } else {
        Retain(h, inner, held);
        ghost var mid := h.cells;
        var b := New(h, Box, [inner], held);
        assert before[v.a].kids == [inner];
        u := Ref(b);
        GrownAppend(before, mid, h.cells[b]);
      }
    } else {
      var c := ShallowCopy(h, v.a, held);
      u := Ref(c);
    }
    GrownKept(before, h.cells);
  }
}
