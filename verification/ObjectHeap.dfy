/** Destruction of reference-counted objects with a worklist (runtime/src/value.c). */
module ObjectHeap {
  import opened HeapModel

  /** The dead list: objects at count zero not yet freed, each once, and (but for those being
   *  freed now) all of them. */
  ghost predicate Parked(cells: seq<Cell>, dead: seq<nat>, busy: set<nat>) {
    && (forall i | 0 <= i < |dead| :: Live(cells, dead[i]) && cells[dead[i]].rc == 0 && dead[i] !in busy)
    && (forall i, j | 0 <= i < j < |dead| :: dead[i] != dead[j])
    && (forall a: nat | Live(cells, a) :: cells[a].rc > 0 || a in dead || a in busy)
  }

  function Lowered(cells: seq<Cell>, a: nat): seq<Cell>
    requires Live(cells, a)
  {
    cells[a := cells[a].(rc := cells[a].rc - 1)]
  }

  function Alive(cells: seq<Cell>): set<nat> {
    set a: nat | a < |cells| && cells[a].Obj?
  }

  /* -------------------------------------------------------- the counts */

  lemma Released(cells: seq<Cell>, held: seq<Value>, v: Value)
    requires Balanced(cells, held + [v])
    ensures v.Plain? ==> Balanced(cells, held)
    ensures v.Ref? ==> Live(cells, v.a) && cells[v.a].rc > 0 && Balanced(Lowered(cells, v.a), held)
  {
    hide Occ, InDeg;
    forall a: nat ensures Occ(held + [v], a) == Occ(held, a) + if v == Ref(a) then 1 else 0 {
      OccAppend(held, [v], a);
      OccOne(v, a);
    }
    if v.Ref? {
      assert Ref(v.a) in held + [v];
      Held(cells, held + [v], v.a);
      var low := Lowered(cells, v.a);
      forall a: nat ensures InDeg(low, a) == InDeg(cells, a) { InDegUpdate(cells, v.a, low[v.a], a); }
    }
  }

  lemma OccOne(v: Value, a: nat)
    ensures Occ([v], a) == if v == Ref(a) then 1 else 0
  {}

  /** An object's references come into hand: it keeps none. */
  lemma Emptied(cells: seq<Cell>, held: seq<Value>, o: nat)
    requires Balanced(cells, held) && Live(cells, o)
    ensures Balanced(cells[o := cells[o].(kids := [])], held + cells[o].kids)
  {
    hide Occ, InDeg;
    var after := cells[o := cells[o].(kids := [])];
    forall a: nat ensures InDeg(after, a) + Occ(held + cells[o].kids, a) == InDeg(cells, a) + Occ(held, a) {
      InDegUpdate(cells, o, after[o], a);
      OccAppend(held, cells[o].kids, a);
      OccNone(a);
    }
  }

  lemma OccNone(a: nat)
    ensures Occ([], a) == 0
  {}

  lemma Vanished(cells: seq<Cell>, held: seq<Value>, o: nat)
    requires Balanced(cells, held) && Live(cells, o) && cells[o].kids == [] && cells[o].rc == 0
    ensures Balanced(cells[o := Free], held)
  {
    hide Occ, InDeg;
    forall a: nat ensures InDeg(cells[o := Free], a) == InDeg(cells, a) {
      InDegUpdate(cells, o, Free, a);
    }
  }

  lemma SameHeld(cells: seq<Cell>, x: seq<Value>, y: seq<Value>)
    requires Balanced(cells, x) && forall a: nat :: Occ(x, a) == Occ(y, a)
    ensures Balanced(cells, y)
  {
    hide Occ, InDeg;
  }

  lemma NextInHand(held: seq<Value>, kids: seq<Value>, i: nat)
    requires i < |kids|
    ensures forall a: nat :: Occ(held + kids[i..], a) == Occ((held + kids[i + 1..]) + [kids[i]], a)
  {
    hide Occ;
    forall a: nat ensures Occ(held + kids[i..], a) == Occ((held + kids[i + 1..]) + [kids[i]], a) {
      assert kids[i..] == [kids[i]] + kids[i + 1..];
      OccAppend(held, kids[i..], a);
      OccAppend([kids[i]], kids[i + 1..], a);
      OccAppend(held, kids[i + 1..], a);
      OccAppend(held + kids[i + 1..], [kids[i]], a);
    }
  }

  lemma ParkedMore(cells: seq<Cell>, dead: seq<nat>, busy: set<nat>, a: nat)
    requires Parked(cells, dead, busy) && Live(cells, a) && cells[a].rc > 0 && a !in busy
    ensures cells[a].rc > 1 ==> Parked(Lowered(cells, a), dead, busy)
    ensures cells[a].rc == 1 ==> Parked(Lowered(cells, a), dead + [a], busy)
    ensures cells[a].rc == 1 ==> Parked(Lowered(cells, a), dead, busy + {a})
  {}

  lemma PrunedThrough(x: seq<Cell>, y: seq<Cell>, z: seq<Cell>)
    requires Pruned(x, y) && Pruned(y, z)
    ensures Pruned(x, z)
  {}

  /** `part` lists the addresses of s, each once. */
  ghost predicate EachOnce(part: seq<nat>, s: set<nat>) {
    && (forall i, j | 0 <= i < j < |part| :: part[i] != part[j])
    && (forall a: nat :: a in part <==> a in s)
  }

  lemma NoneFreed(log: seq<nat>, s: set<nat>)
    ensures EachOnce(log[|log|..], s - s)
  {}

  lemma FirstFreed(a: nat)
    ensures EachOnce([a], {a})
  {}

  lemma NextFreed(part: seq<nat>, s: set<nat>, a: nat)
    requires EachOnce(part, s) && a !in s
    ensures EachOnce(part + [a], s + {a})
  {}

  lemma LowerAlive(cells: seq<Cell>)
    ensures forall a: nat | Live(cells, a) :: Alive(Lowered(cells, a)) == Alive(cells)
  {}

  lemma PrunedAlive(before: seq<Cell>, after: seq<Cell>)
    requires Pruned(before, after)
    ensures Alive(after) <= Alive(before)
  {}

  /* -------------------------------------------------------- the heap */

  class Heap {
    var cells: seq<Cell>
    var dead: seq<nat>
    var freeing: bool
    ghost var log: seq<nat>   // the addresses freed, in order

    /** vl_release.  `held` is every reference outside the objects but the one let go; `busy`, the
     *  object being freed.  A release made while freeing only parks; the outermost one drains
     *  the list, and frees exactly what the remaining references do not reach. */
    method Release(v: Value, ghost held: seq<Value>, ghost busy: set<nat>)
      requires v.Ref? ==> Live(cells, v.a)
      requires Balanced(cells, held + [v]) && Parked(cells, dead, busy)
      requires forall o | o in busy :: Live(cells, o) && cells[o].rc == 0
      requires freeing || (dead == [] && busy == {})
      modifies this
      ensures freeing == old(freeing) && Balanced(cells, held) && Parked(cells, dead, busy)
      ensures old(freeing) ==> cells == (if v.Ref? then Lowered(old(cells), v.a) else old(cells)) && log == old(log)
      ensures v.Ref? && old(cells)[v.a].rc > 1 ==> cells == Lowered(old(cells), v.a)
      ensures Pruned(old(cells), cells)
      ensures old(log) <= log && EachOnce(log[|old(log)|..], Alive(old(cells)) - Alive(cells))
      ensures !old(freeing) ==> dead == [] && Positive(cells)
      ensures !old(freeing) && Acyclic(old(cells)) ==>
                forall a: nat | Live(old(cells), a) :: Live(cells, a) <==> Reached(old(cells), held, a)
      decreases if freeing then 0 else 2
    {
      hide Balanced, Acyclic, Reached, Pruned, Parked, EachOnce;
      Released(cells, held, v);
      ghost var before, log0 := cells, log;
      NoneFreed(log, Alive(cells));
      LowerAlive(cells);
      PrunedSelf(cells);
      if v.Plain? {
        Settled(cells, dead, busy);
        ExactlyFreed(before, cells, held);
        return;
      }
      var a := v.a;
      ParkedMore(cells, dead, busy, a);
      PrunedLower(cells, a);
      cells := Lowered(cells, a);
      if cells[a].rc > 0 {
        Settled(cells, dead, busy);
        ExactlyFreed(before, cells, held);
        return;
      }
      if freeing {
        dead := dead + [a];
        return;
      }
      freeing := true;
      assert busy + {a} == {a};
      ghost var c0 := cells;
      ObjFree(a, held);
      PrunedThrough(before, c0, cells);
      FirstFreed(a);
      assert log[|log0|..] == [a] && Alive(before) - Alive(cells) == {a};
      while |dead| > 0
        invariant freeing && Balanced(cells, held) && Parked(cells, dead, {}) && Pruned(before, cells)
        invariant log0 <= log && EachOnce(log[|log0|..], Alive(before) - Alive(cells))
        decreases Alive(cells)
      {
        var next := dead[|dead| - 1];
        Unparked(cells, dead);
        dead := dead[..|dead| - 1];
        ghost var c1, part := cells, log[|log0|..];
        ObjFree(next, held);
        PrunedThrough(before, c1, cells);
        PrunedAlive(before, c1);
        NextFreed(part, Alive(before) - Alive(c1), next);
        assert log[|log0|..] == part + [next];
        assert Alive(before) - Alive(cells) == (Alive(before) - Alive(c1)) + {next};
      }
      freeing := false;
      Settled(cells, dead, {});
      ExactlyFreed(before, cells, held);
    }

    /** obj_free: lets go of everything o refers to, then frees o. */
    method ObjFree(o: nat, ghost held: seq<Value>)
      requires freeing && Balanced(cells, held) && Parked(cells, dead, {o}) && Live(cells, o) && cells[o].rc == 0
      modifies this
      ensures freeing && Balanced(cells, held) && Parked(cells, dead, {})
      ensures Pruned(old(cells), cells)
      ensures Alive(cells) == Alive(old(cells)) - {o} && log == old(log) + [o]
      decreases 1
    {
      hide Balanced, Pruned, Parked;
      var kids := cells[o].kids;
      Emptied(cells, held, o);
      ParkedEmptied(cells, dead, o);
      ghost var before := cells;
      cells := cells[o := cells[o].(kids := [])];
      assert kids[0..] == kids;
      var i := 0;
      while i < |kids|
        invariant i <= |kids| && freeing
        invariant Balanced(cells, held + kids[i..]) && Parked(cells, dead, {o})
        invariant Emptying(before, cells, o) && log == old(log)
      {
        NextInHand(held, kids, i);
        SameHeld(cells, held + kids[i..], (held + kids[i + 1..]) + [kids[i]]);
        Released(cells, held + kids[i + 1..], kids[i]);
        Release(kids[i], held + kids[i + 1..], {o});
        i := i + 1;
      }
      assert held + kids[i..] == held;
      Vanished(cells, held, o);
      ParkedGone(cells, dead, o);
      EmptiedPruned(before, cells, o);
      cells := cells[o := Free];
      log := log + [o];
    }
  }

  /** Since `before`, object o lost its contents and counts of others went down. */
  predicate Emptying(before: seq<Cell>, now: seq<Cell>, o: nat) {
    |now| == |before| && Live(now, o) && now[o].kids == [] && now[o].rc == 0
    && forall a | 0 <= a < |now| && a != o ::
         now[a].Obj? == before[a].Obj?
         && (now[a].Obj? ==> now[a].kind == before[a].kind && now[a].kids == before[a].kids)
  }

  lemma EmptiedPruned(before: seq<Cell>, now: seq<Cell>, o: nat)
    requires Emptying(before, now, o) && Live(before, o)
    ensures Pruned(before, now[o := Free])
    ensures Alive(now[o := Free]) == Alive(before) - {o}
  {
    forall a | 0 <= a < |now|
      ensures now[o := Free][a] == Free || (before[a].Obj? && now[o := Free][a].kind == before[a].kind
                                            && now[o := Free][a].kids == before[a].kids)
    {
      if a != o { assert now[a].Obj? == before[a].Obj?; }
    }
  }

  lemma PrunedSelf(cells: seq<Cell>)
    ensures Pruned(cells, cells)
  {}

  lemma PrunedLower(cells: seq<Cell>, a: nat)
    requires Live(cells, a)
    ensures Pruned(cells, Lowered(cells, a))
  {}

  lemma ParkedEmptied(cells: seq<Cell>, dead: seq<nat>, o: nat)
    requires Parked(cells, dead, {o}) && Live(cells, o)
    ensures Parked(cells[o := cells[o].(kids := [])], dead, {o})
  {}

  lemma ParkedGone(cells: seq<Cell>, dead: seq<nat>, o: nat)
    requires Parked(cells, dead, {o}) && Live(cells, o)
    ensures Parked(cells[o := Free], dead, {})
  {}

  lemma Unparked(cells: seq<Cell>, dead: seq<nat>)
    requires Parked(cells, dead, {}) && |dead| > 0
    ensures Live(cells, dead[|dead| - 1]) && cells[dead[|dead| - 1]].rc == 0
    ensures Parked(cells, dead[..|dead| - 1], {dead[|dead| - 1]})
  {
    var rest, o := dead[..|dead| - 1], dead[|dead| - 1];
    forall a: nat | Live(cells, a) ensures cells[a].rc > 0 || a in rest || a in {o} {
      if a in dead && a != o {
        var i :| 0 <= i < |dead| && dead[i] == a;
        assert rest[i] == a;
      }
    }
  }

  lemma Settled(cells: seq<Cell>, dead: seq<nat>, busy: set<nat>)
    requires Parked(cells, dead, busy)
    ensures dead == [] && busy == {} ==> Positive(cells)
  {}

  lemma ExactlyFreed(before: seq<Cell>, after: seq<Cell>, held: seq<Value>)
    requires Pruned(before, after) && Balanced(after, held)
    ensures Positive(after) && Acyclic(before) ==>
              forall a: nat | Live(before, a) :: Live(after, a) <==> Reached(before, held, a)
  {
    hide Balanced, Pruned, Positive, Acyclic, Reached;
    if Positive(after) && Acyclic(before) {
      forall a: nat | Live(before, a) ensures Live(after, a) <==> Reached(before, held, a) {
        FreedExactly(before, after, held, a);
      }
    }
  }
}
