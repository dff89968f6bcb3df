/** Assignments that another name sees, run by run; and one that only seems to be such. */
module CowWitness {
  import opened HeapModel
  import opened ValueMeaning
  import opened ObjectHeap
  import opened CopyOnWrite
  import opened CowPath
  import opened CowCondition
  import opened CowCycles
  import opened CowExact
  import opened CowAssign

  function One(rc: int, kind: Kind, kid: Value): Cell {
    Obj(rc, kind, [kid])
  }

  lemma InDegThree(a: Cell, b: Cell, c: Cell, x: nat)
    requires a.Obj? && b.Obj? && c.Obj? && |a.kids| == 1 && |b.kids| == 1 && |c.kids| == 1
    ensures InDeg([a, b, c], x)
         == (if a.kids[0] == Ref(x) then 1 else 0) + (if b.kids[0] == Ref(x) then 1 else 0)
           + (if c.kids[0] == Ref(x) then 1 else 0)
  {
    assert [a, b, c][1..] == [b, c] && [b, c][1..] == [c] && [c][1..] == [];
    assert a.kids == [a.kids[0]] && b.kids == [b.kids[0]] && c.kids == [c.kids[0]];
    OccOne(a.kids[0], x);
    OccOne(b.kids[0], x);
    OccOne(c.kids[0], x);
    hide Occ;
    assert InDeg([], x) == 0;
    assert InDeg([c], x) == Occ(c.kids, x) + InDeg([], x);
    assert InDeg([b, c], x) == Occ(b.kids, x) + InDeg([c], x);
    assert InDeg([a, b, c], x) == Occ(a.kids, x) + InDeg([b, c], x);
  }

  lemma OccThree(u: Value, v: Value, w: Value, x: nat)
    ensures Occ([u, v, w], x)
         == (if u == Ref(x) then 1 else 0) + (if v == Ref(x) then 1 else 0) + (if w == Ref(x) then 1 else 0)
    ensures Occ([u, v], x) == (if u == Ref(x) then 1 else 0) + (if v == Ref(x) then 1 else 0)
  {
    assert [u, v, w][1..] == [v, w] && [v, w][1..] == [w] && [u, v][1..] == [v];
    OccOne(v, x);
    OccOne(w, x);
  }

  lemma SoleThree(a: Cell, b: Cell, c: Cell, u: Value, v: Value, w: Value, x: nat)
    requires a.Obj? && b.Obj? && c.Obj? && |a.kids| == 1 && |b.kids| == 1 && |c.kids| == 1
    ensures Sole([a, b, c], [u, v] + [w], x) <==>
      (if a.kids[0] == Ref(x) then 1 else 0) + (if b.kids[0] == Ref(x) then 1 else 0)
        + (if c.kids[0] == Ref(x) then 1 else 0)
      + (if u == Ref(x) then 1 else 0) + (if v == Ref(x) then 1 else 0) + (if w == Ref(x) then 1 else 0) <= 1
  {
    hide InDeg, Occ;
    InDegThree(a, b, c, x);
    assert [u, v] + [w] == [u, v, w];
    OccThree(u, v, w, x);
  }

  /** Three objects of one slot each, each holding a lower one or a plain value. */
  lemma SoundThree(a: Cell, b: Cell, c: Cell, u: Value, v: Value, w: Value)
    requires a.Obj? && b.Obj? && c.Obj? && |a.kids| == 1 && |b.kids| == 1 && |c.kids| == 1
    requires a.kids[0].Plain? && (b.kids[0].Ref? ==> b.kids[0].a < 1) && (c.kids[0].Ref? ==> c.kids[0].a < 2)
    requires (u.Ref? ==> u.a < 3) && (v.Ref? ==> v.a < 3) && (w.Ref? ==> w.a < 3)
    requires forall x: nat | x < 3 ::
               [a, b, c][x].rc > 0 && [a, b, c][x].rc == InDeg([a, b, c], x) + Occ([u, v, w], x)
    ensures Sound([a, b, c], [u, v] + [w])
  {
    hide InDeg, Occ;
    assert [u, v] + [w] == [u, v, w];
    forall x: nat | x >= 3 ensures InDeg([a, b, c], x) == 0 && Occ([u, v, w], x) == 0 {
      InDegThree(a, b, c, x);
      OccThree(u, v, w, x);
    }
    assert Ranked([a, b, c], [0, 1, 2]);
  }

  lemma MeansLeaf(cells: seq<Cell>, n: int)
    ensures Means(cells, Plain(n), Leaf(n))
  {}

  lemma MeansNode(cells: seq<Cell>, a: nat, t: Tree)
    requires Live(cells, a) && |cells[a].kids| == 1 && Means(cells, cells[a].kids[0], t)
    ensures Means(cells, Ref(a), Node(cells[a].kind, [t]))
  {}

  function Wrap(k: Kind, t: Tree): Tree {
    Node(k, [t])
  }

  lemma MeansThree(a: Cell, b: Cell, c: Cell, n: int)
    requires a.Obj? && b.Obj? && c.Obj? && a.kids == [Plain(n)] && b.kids == [Ref(0)] && c.kids == [Ref(1)]
    ensures var cells := [a, b, c];
      Means(cells, Ref(0), Wrap(a.kind, Leaf(n))) && Means(cells, Ref(1), Wrap(b.kind, Wrap(a.kind, Leaf(n))))
      && Means(cells, Ref(2), Wrap(c.kind, Wrap(b.kind, Wrap(a.kind, Leaf(n)))))
  {
    var cells := [a, b, c];
    MeansLeaf(cells, n);
    MeansNode(cells, 0, Leaf(n));
    MeansNode(cells, 1, Wrap(a.kind, Leaf(n)));
    MeansNode(cells, 2, Wrap(b.kind, Wrap(a.kind, Leaf(n))));
  }

  /* -------------------------------------------------------- p in a Box */

  /** p, a struct at 1, has a field that is a struct holding 1; b is a Box over p itself. */
  function BoxedCells(): seq<Cell> {
    [One(1, Struct, Plain(1)), One(2, Struct, Ref(0)), One(1, Box, Ref(1))]
  }

  function Inner(n: int): Tree { Wrap(Struct, Leaf(n)) }

  function Outer(n: int): Tree { Wrap(Struct, Inner(n)) }

  lemma BoxedFacts()
    ensures Sound(BoxedCells(), [Ref(1), Ref(2)] + [Plain(5)])
    ensures Means(BoxedCells(), Ref(1), Outer(1)) && Means(BoxedCells(), Ref(2), Wrap(Box, Outer(1)))
    ensures !Sole(BoxedCells(), [Ref(1), Ref(2)] + [Plain(5)], 1)
    ensures Sole(BoxedCells(), [Ref(1), Ref(2)] + [Plain(5)], 0)
    ensures Sole(BoxedCells(), [Ref(1), Ref(2)] + [Plain(5)], 2)
  {
    var a, b, c := One(1, Struct, Plain(1)), One(2, Struct, Ref(0)), One(1, Box, Ref(1));
    hide InDeg, Occ, Sole, Sound;
    forall x: nat | x < 3 ensures [a, b, c][x].rc > 0
    && [a, b, c][x].rc == InDeg([a, b, c], x) + Occ([Ref(1), Ref(2), Plain(5)], x) {
      InDegThree(a, b, c, x);
      OccThree(Ref(1), Ref(2), Plain(5), x);
    }
    SoundThree(a, b, c, Ref(1), Ref(2), Plain(5));
    SoleThree(a, b, c, Ref(1), Ref(2), Plain(5), 0);
    SoleThree(a, b, c, Ref(1), Ref(2), Plain(5), 1);
    SoleThree(a, b, c, Ref(1), Ref(2), Plain(5), 2);
    MeansThree(a, b, c, 1);
  }

  /** `b.f.x = 5`, read through the Box: p is shared, and what its field holds is not, so neither
   *  is copied. */
  lemma BoxedPath()
    ensures var t := Wrap(Box, Outer(1));
      PlainPath(t, [0], Field(0)) && Reaches(t, [0], Field(0)) && Slots(t, [0], Field(0)) == [0, 0, 0]
      && At(t, [0, 0, 0]) == Leaf(1) && Update(t, [0, 0, 0], Leaf(5)) == Wrap(Box, Outer(5))
  {
    var t := Wrap(Box, Outer(1));
    assert Thru(t, false) && !Thru(Outer(1), false) && CoreTree(t, false) == Outer(1);
    assert [0][1..] == [] && !Thru(Inner(1), false);
    assert FirstSlots(1) == [0] && FirstSlots(0) == [];
    assert Slots(Inner(1), [], Field(0)) == [0];
    assert Slots(t, [0], Field(0)) == [0] + ([0] + [0]);
    assert [0, 0, 0][1..] == [0, 0] && [0, 0][1..] == [0];
    assert Update(Inner(1), [0], Leaf(5)) == Inner(5) by { assert [Leaf(1)][0 := Leaf(5)] == [Leaf(5)]; }
    assert Update(Outer(1), [0, 0], Leaf(5)) == Outer(5) by { assert [Inner(1)][0 := Inner(5)] == [Inner(5)]; }
    assert [Outer(1)][0 := Outer(5)] == [Outer(5)];
  }

  lemma BoxedSeen()
    requires Means(BoxedCells(), Ref(2), Wrap(Box, Outer(1))) && Reaches(Wrap(Box, Outer(1)), [0], Field(0))
    ensures !Harmless(BoxedCells(), [Ref(1), Ref(2)], Plain(5), 1, Wrap(Box, Outer(1)), [0], Field(0))
  {
    BoxedFacts();
    var cells, others, t := BoxedCells(), [Ref(1), Ref(2)] + [Plain(5)], Wrap(Box, Outer(1));
    hide Sole, Counted;
    assert Thru(t, false) && !Thru(Outer(1), false);
    assert Look(cells, others, 1, Outer(1), false, false, false, Mends) == Mends;
    assert Look(cells, others, 2, t, false, false, false, Clean) == Mends;
    assert Core(cells, 2, t, false) == 1;
    DupNowhere(t, false);
    assert !GoodFrom(cells, others, 2, t, false, false, [0], Field(0));
  }

  /** So p changes with b, or b does not change. */
  method ReadThroughBoxIsShared(names: Names) returns (ok: bool)
    requires Ready(names.heap, [Ref(1), Ref(2)] + [Plain(5)]) && names.heap.cells == BoxedCells()
    requires names.vars == [Ref(1), Ref(2)]
    modifies names.heap, names`vars
    ensures ok && |names.vars| == 2
    ensures !(Means(names.heap.cells, names.vars[1], Wrap(Box, Outer(5)))
              && Means(names.heap.cells, names.vars[0], Outer(1)))
  {
    BoxedFacts();
    BoxedPath();
    BoxedSeen();
    ghost var before, old_ := names.heap.cells, names.vars;
    hide Sound, Means, PlainPath, Reaches, Slots, At, Update, Harmless, Acyclic, Counted;
    OnlyTree(before, Ref(2), Wrap(Box, Outer(1)));
    ok := names.Assign(1, [0], Field(0), Plain(5));
    MeansFive(before);
    Judge(before, old_, names.heap.cells, names.vars, Plain(5), 1, 0, [0], Field(0), Wrap(Box, Outer(1)), Leaf(5),
          Outer(1));
  }

  lemma MeansFive(cells: seq<Cell>)
    ensures Means(cells, Plain(5), Leaf(5))
  {}

  /** The outcome where the condition fails, for two names. */
  lemma Judge(before: seq<Cell>, old_: seq<Value>, after: seq<Cell>, now: seq<Value>, v: Value, x: nat, y: nat,
              path: seq<nat>, target: Target, t: Tree, u: Tree, s: Tree)
    requires |old_| == |now| == 2 && x < 2 && y < 2 && y != x
    requires Outcome(before, old_, v, after, now, x, path, target)
    requires Means(before, old_[x], t) && Means(before, v, u) && Reaches(t, path, target) && Means(before, old_[y], s)
    requires At(t, Slots(t, path, target)) != u && !Harmless(before, old_, v, x, t, path, target)
    ensures !(Means(after, now[x], Update(t, Slots(t, path, target), u)) && Means(after, now[y], s))
  {
    hide Means, Reaches, Slots, At, Update, Harmless, Acyclic;
    assert !Updated(before, old_, after, now, x, Slots(t, path, target), t, u);
    BothUpdated(before, old_, after, now, x, y, Slots(t, path, target), t, u, s);
  }

  lemma BothUpdated(before: seq<Cell>, old_: seq<Value>, after: seq<Cell>, now: seq<Value>, x: nat, y: nat,
                    slots: seq<nat>, t: Tree, u: Tree, s: Tree)
    requires |old_| == |now| == 2 && x < 2 && y < 2 && y != x && Means(before, old_[y], s)
    ensures Means(after, now[x], Update(t, slots, u)) && Means(after, now[y], s) ==>
              Updated(before, old_, after, now, x, slots, t, u)
  {
    OnlyTree(before, old_[y], s);
    hide Means, Update;
  }

  /* -------------------------------------------------------- p in a Box, and in itself */

  /** As BoxedCells, with a reference to p in hand. */
  function LoopedCells(): seq<Cell> {
    [One(1, Struct, Plain(1)), One(3, Struct, Ref(0)), One(1, Box, Ref(1))]
  }

  lemma LoopedFacts()
    ensures Sound(LoopedCells(), [Ref(1), Ref(2)] + [Ref(1)])
    ensures Means(LoopedCells(), Ref(1), Outer(1)) && Means(LoopedCells(), Ref(2), Wrap(Box, Outer(1)))
    ensures Sole(LoopedCells(), [Ref(1), Ref(2)] + [Ref(1)], 0)
    ensures Sole(LoopedCells(), [Ref(1), Ref(2)] + [Ref(1)], 2)
  {
    var a, b, c := One(1, Struct, Plain(1)), One(3, Struct, Ref(0)), One(1, Box, Ref(1));
    hide InDeg, Occ, Sole, Sound;
    forall x: nat | x < 3 ensures [a, b, c][x].rc > 0
    && [a, b, c][x].rc == InDeg([a, b, c], x) + Occ([Ref(1), Ref(2), Ref(1)], x) {
      InDegThree(a, b, c, x);
      OccThree(Ref(1), Ref(2), Ref(1), x);
    }
    SoundThree(a, b, c, Ref(1), Ref(2), Ref(1));
    SoleThree(a, b, c, Ref(1), Ref(2), Ref(1), 0);
    SoleThree(a, b, c, Ref(1), Ref(2), Ref(1), 2);
    MeansThree(a, b, c, 1);
  }

  /** Nothing on the path is copied, p itself least of all. */
  lemma LoopedStays()
    requires Means(LoopedCells(), Ref(2), Wrap(Box, Outer(1))) && Reaches(Wrap(Box, Outer(1)), [0], Field(0))
    ensures Hits(LoopedCells(), Ref(1),
                 Fixed(LoopedCells(), [Ref(1), Ref(2)], Ref(1), 1, Wrap(Box, Outer(1)), [0], Field(0)))
  {
    LoopedFacts();
    var cells, others, t := LoopedCells(), [Ref(1), Ref(2)] + [Ref(1)], Wrap(Box, Outer(1));
    hide Sole, Counted;
    assert Thru(t, false) && !Thru(Outer(1), false) && CoreTree(t, false) == Outer(1);
    assert Core(cells, 2, t, false) == 1;
    DupNowhere(t, false);
    assert 1 in Stays(cells, others, 2, t, false, false, false, false);
    assert 1 in StaysFrom(cells, others, 2, t, false, false, [0], Field(0));
    assert Leads(cells, Ref(1), [], 1);
  }

  /** `b.f.x = p`: what p's field holds, now holds p. */
  method WriteClosesCycle(names: Names) returns (ok: bool)
    requires Ready(names.heap, [Ref(1), Ref(2)] + [Ref(1)]) && names.heap.cells == LoopedCells()
    requires names.vars == [Ref(1), Ref(2)]
    modifies names.heap, names`vars
    ensures ok && !Acyclic(names.heap.cells)
  {
    LoopedFacts();
    BoxedPath();
    LoopedStays();
    ghost var before, old_ := names.heap.cells, names.vars;
    hide Sound, Means, PlainPath, Reaches, Slots, At, Update, Harmless, Acyclic, Counted, Fixed, Hits;
    OnlyTree(before, Ref(2), Wrap(Box, Outer(1)));
    ok := names.Assign(1, [0], Field(0), Ref(1));
    Cyclic(before, old_, names.heap.cells, names.vars, Ref(1), 1, [0], Field(0), Wrap(Box, Outer(1)), Outer(1));
  }

  /** The outcome where what is written leads to an object left in place. */
  lemma Cyclic(before: seq<Cell>, old_: seq<Value>, after: seq<Cell>, now: seq<Value>, v: Value, x: nat, path: seq<nat>,
               target: Target, t: Tree, u: Tree)
    requires x < |old_| && Outcome(before, old_, v, after, now, x, path, target)
    requires Means(before, old_[x], t) && Means(before, v, u) && Reaches(t, path, target)
    requires Hits(before, v, Fixed(before, old_, v, x, t, path, target))
    ensures !Acyclic(after)
  {
    hide Means, Reaches, Slots, At, Update, Harmless, Acyclic, Fixed, Hits;
  }

  /* -------------------------------------------------------- a Box in a Box */

  /** p, a Box at 1 over a struct holding 1; b is a Box over p itself. */
  function NestedCells(): seq<Cell> {
    [One(1, Struct, Plain(1)), One(2, Box, Ref(0)), One(1, Box, Ref(1))]
  }

  lemma NestedFacts()
    ensures Sound(NestedCells(), [Ref(1), Ref(2)] + [Plain(5)])
    ensures Means(NestedCells(), Ref(1), Wrap(Box, Inner(1)))
    ensures Means(NestedCells(), Ref(2), Wrap(Box, Wrap(Box, Inner(1))))
    ensures !Sole(NestedCells(), [Ref(1), Ref(2)] + [Plain(5)], 1)
    ensures Sole(NestedCells(), [Ref(1), Ref(2)] + [Plain(5)], 2)
  {
    var a, b, c := One(1, Struct, Plain(1)), One(2, Box, Ref(0)), One(1, Box, Ref(1));
    hide InDeg, Occ, Sole, Sound;
    forall x: nat | x < 3 ensures [a, b, c][x].rc > 0
    && [a, b, c][x].rc == InDeg([a, b, c], x) + Occ([Ref(1), Ref(2), Plain(5)], x) {
      InDegThree(a, b, c, x);
      OccThree(Ref(1), Ref(2), Plain(5), x);
    }
    SoundThree(a, b, c, Ref(1), Ref(2), Plain(5));
    SoleThree(a, b, c, Ref(1), Ref(2), Plain(5), 1);
    SoleThree(a, b, c, Ref(1), Ref(2), Plain(5), 2);
    MeansThree(a, b, c, 1);
  }

  lemma NestedPath()
    ensures var t := Wrap(Box, Wrap(Box, Inner(1)));
      PlainPath(t, [], Field(0)) && Reaches(t, [], Field(0)) && Slots(t, [], Field(0)) == [0, 0, 0]
      && At(t, [0, 0, 0]) == Leaf(1) && Update(t, [0, 0, 0], Leaf(5)) == Wrap(Box, Wrap(Box, Inner(5)))
  {
    var t := Wrap(Box, Wrap(Box, Inner(1)));
    assert Thru(t, false) && Thru(Wrap(Box, Inner(1)), false) && !Thru(Inner(1), false)
    && CoreTree(t, false) == Inner(1);
    assert Depth(t, false) == 2 && FirstSlots(2) == [0, 0];
    assert [0, 0, 0][1..] == [0, 0] && [0, 0][1..] == [0] && [0][1..] == [];
    assert Update(Inner(1), [0], Leaf(5)) == Inner(5) by { assert [Leaf(1)][0 := Leaf(5)] == [Leaf(5)]; }
    assert Update(Wrap(Box, Inner(1)), [0, 0], Leaf(5))
         == Wrap(Box, Inner(5)) by { assert [Inner(1)][0 := Inner(5)] == [Inner(5)]; }
    assert [Wrap(Box, Inner(1))][0 := Wrap(Box, Inner(5))] == [Wrap(Box, Inner(5))];
  }

  lemma NestedSeen()
    requires Means(NestedCells(), Ref(2), Wrap(Box, Wrap(Box, Inner(1))))
    requires Reaches(Wrap(Box, Wrap(Box, Inner(1))), [], Field(0))
    ensures !Harmless(NestedCells(), [Ref(1), Ref(2)], Plain(5), 1, Wrap(Box, Wrap(Box, Inner(1))), [], Field(0))
  {
    NestedFacts();
    var cells, others, t := NestedCells(), [Ref(1), Ref(2)] + [Plain(5)], Wrap(Box, Wrap(Box, Inner(1)));
    hide Sole, Counted;
    assert Thru(t, false);
    StuckStays(cells, others, 1, Wrap(Box, Inner(1)), false, false, false);
    assert Look(cells, others, 2, t, false, false, false, Clean) == Stuck;
  }

  /** `b.x = 5`: own_inner copies a struct, not a Box. */
  method BoxInBoxIsShared(names: Names) returns (ok: bool)
    requires Ready(names.heap, [Ref(1), Ref(2)] + [Plain(5)]) && names.heap.cells == NestedCells()
    requires names.vars == [Ref(1), Ref(2)]
    modifies names.heap, names`vars
    ensures ok && |names.vars| == 2
    ensures !(Means(names.heap.cells, names.vars[1], Wrap(Box, Wrap(Box, Inner(5))))
              && Means(names.heap.cells, names.vars[0], Wrap(Box, Inner(1))))
  {
    NestedFacts();
    NestedPath();
    NestedSeen();
    ghost var before, old_ := names.heap.cells, names.vars;
    hide Sound, Means, PlainPath, Reaches, Slots, At, Update, Harmless, Acyclic, Counted;
    OnlyTree(before, Ref(2), Wrap(Box, Wrap(Box, Inner(1))));
    ok := names.Assign(1, [], Field(0), Plain(5));
    MeansFive(before);
    Judge(before, old_, names.heap.cells, names.vars, Plain(5), 1, 0, [], Field(0), Wrap(Box, Wrap(Box, Inner(1))),
          Leaf(5), Wrap(Box, Inner(1)));
  }

  /* -------------------------------------------------------- a newtype held twice */

  /** m and n are one newtype over a struct, with a count of one, whose field is a struct. */
  function NewtypeCells(): seq<Cell> {
    [One(1, Struct, Plain(1)), One(1, Struct, Ref(0)), One(2, Newtype, Ref(1))]
  }

  lemma NewtypeFacts()
    ensures Sound(NewtypeCells(), [Ref(2), Ref(2)] + [Plain(5)])
    ensures Means(NewtypeCells(), Ref(2), Wrap(Newtype, Outer(1)))
    ensures Sole(NewtypeCells(), [Ref(2), Ref(2)] + [Plain(5)], 0)
    ensures Sole(NewtypeCells(), [Ref(2), Ref(2)] + [Plain(5)], 1)
    ensures !Sole(NewtypeCells(), [Ref(2), Ref(2)] + [Plain(5)], 2)
  {
    var a, b, c := One(1, Struct, Plain(1)), One(1, Struct, Ref(0)), One(2, Newtype, Ref(1));
    hide InDeg, Occ, Sole, Sound;
    forall x: nat | x < 3 ensures [a, b, c][x].rc > 0
    && [a, b, c][x].rc == InDeg([a, b, c], x) + Occ([Ref(2), Ref(2), Plain(5)], x) {
      InDegThree(a, b, c, x);
      OccThree(Ref(2), Ref(2), Plain(5), x);
    }
    SoundThree(a, b, c, Ref(2), Ref(2), Plain(5));
    SoleThree(a, b, c, Ref(2), Ref(2), Plain(5), 0);
    SoleThree(a, b, c, Ref(2), Ref(2), Plain(5), 1);
    SoleThree(a, b, c, Ref(2), Ref(2), Plain(5), 2);
    MeansThree(a, b, c, 1);
  }

  lemma NewtypePath()
    ensures var t := Wrap(Newtype, Outer(1));
      PlainPath(t, [0], Field(0)) && Reaches(t, [0], Field(0)) && Slots(t, [0], Field(0)) == [0, 0, 0]
      && At(t, [0, 0, 0]) == Leaf(1) && Update(t, [0, 0, 0], Leaf(5)) == Wrap(Newtype, Outer(5))
  {
    var t := Wrap(Newtype, Outer(1));
    assert Thru(t, false) && !Thru(Outer(1), false) && CoreTree(t, false) == Outer(1);
    assert [0][1..] == [] && !Thru(Inner(1), false);
    assert FirstSlots(1) == [0] && FirstSlots(0) == [];
    assert Slots(Inner(1), [], Field(0)) == [0];
    assert Slots(t, [0], Field(0)) == [0] + ([0] + [0]);
    assert [0, 0, 0][1..] == [0, 0] && [0, 0][1..] == [0];
    assert Update(Inner(1), [0], Leaf(5)) == Inner(5) by { assert [Leaf(1)][0 := Leaf(5)] == [Leaf(5)]; }
    assert Update(Outer(1), [0, 0], Leaf(5)) == Outer(5) by { assert [Inner(1)][0 := Inner(5)] == [Inner(5)]; }
    assert [Outer(1)][0 := Outer(5)] == [Outer(5)];
  }

  lemma NewtypeSeen()
    requires Means(NewtypeCells(), Ref(2), Wrap(Newtype, Outer(1))) && Reaches(Wrap(Newtype, Outer(1)), [0], Field(0))
    ensures !Harmless(NewtypeCells(), [Ref(2), Ref(2)], Plain(5), 1, Wrap(Newtype, Outer(1)), [0], Field(0))
  {
    NewtypeFacts();
    var cells, others, t := NewtypeCells(), [Ref(2), Ref(2)] + [Plain(5)], Wrap(Newtype, Outer(1));
    hide Sole, Counted;
    assert Thru(t, false) && !Thru(Outer(1), false);
    assert Look(cells, others, 1, Outer(1), false, false, false, Mends) == Mends;
    assert Look(cells, others, 2, t, false, true, false, Clean) == Mends;
    assert Core(cells, 2, t, false) == 1;
    assert !DupAtCore(t, false, true, false);
    assert !GoodFrom(cells, others, 2, t, true, false, [0], Field(0));
  }

  /** `n.f.x = 5`: copying the newtype makes its struct shared, and the field read from it is not. */
  method NewtypeIsShared(names: Names) returns (ok: bool)
    requires Ready(names.heap, [Ref(2), Ref(2)] + [Plain(5)]) && names.heap.cells == NewtypeCells()
    requires names.vars == [Ref(2), Ref(2)]
    modifies names.heap, names`vars
    ensures ok && |names.vars| == 2
    ensures !(Means(names.heap.cells, names.vars[1], Wrap(Newtype, Outer(5)))
              && Means(names.heap.cells, names.vars[0], Wrap(Newtype, Outer(1))))
  {
    NewtypeFacts();
    NewtypePath();
    NewtypeSeen();
    ghost var before, old_ := names.heap.cells, names.vars;
    hide Sound, Means, PlainPath, Reaches, Slots, At, Update, Harmless, Acyclic, Counted;
    OnlyTree(before, Ref(2), Wrap(Newtype, Outer(1)));
    ok := names.Assign(1, [0], Field(0), Plain(5));
    MeansFive(before);
    Judge(before, old_, names.heap.cells, names.vars, Plain(5), 1, 0, [0], Field(0), Wrap(Newtype, Outer(1)), Leaf(5),
          Wrap(Newtype, Outer(1)));
  }

  /* -------------------------------------------------------- what mends itself */

  /** As BoxedCells, but what p's field holds has a second holder as well: the value assigned. */
  function MendedCells(): seq<Cell> {
    [One(2, Struct, Plain(1)), One(2, Struct, Ref(0)), One(1, Box, Ref(1))]
  }

  /** A count above one inside the Box is no harm when the next level is shared too: writing its
   *  copy back copies p. */
  lemma SharedInsideMends()
    ensures Means(MendedCells(), Ref(2), Wrap(Box, Outer(1))) && Reaches(Wrap(Box, Outer(1)), [0], Field(0))
    ensures !Sole(MendedCells(), [Ref(1), Ref(2)] + [Ref(0)], 1)
    ensures Harmless(MendedCells(), [Ref(1), Ref(2)], Ref(0), 1, Wrap(Box, Outer(1)), [0], Field(0))
  {
    MendedFacts();
    BoxedPath();
    var cells, others, t := MendedCells(), [Ref(1), Ref(2)] + [Ref(0)], Wrap(Box, Outer(1));
    MendedLooks();
    hide Sole, Counted, Look, MendedCells;
    assert [0][1..] == [];
    assert GoodFrom(cells, others, 0, Inner(1), true, false, [], Field(0));
    assert GoodFrom(cells, others, 2, t, false, false, [0], Field(0));
  }

  lemma MendedLooks()
    ensures Means(MendedCells(), Ref(0), Inner(1)) && Means(MendedCells(), Ref(2), Wrap(Box, Outer(1)))
    ensures var cells, others, t := MendedCells(), [Ref(1), Ref(2)] + [Ref(0)], Wrap(Box, Outer(1));
      Look(cells, others, 2, t, false, false, false, Clean) == Mends
      && Core(cells, 2, t, false) == 1 && cells[1].kids == [Ref(0)]
      && Look(cells, others, 0, Inner(1), false, true, false, Clean) == Clean
  {
    MendedFacts();
    hide Sole, Counted;
    var cells, others := MendedCells(), [Ref(1), Ref(2)] + [Ref(0)];
    assert !Thru(Outer(1), false) && !Thru(Inner(1), false);
    assert Look(cells, others, 1, Outer(1), false, false, false, Mends) == Mends;
  }

  lemma MendedFacts()
    ensures Means(MendedCells(), Ref(0), Inner(1)) && Means(MendedCells(), Ref(1), Outer(1))
    ensures Means(MendedCells(), Ref(2), Wrap(Box, Outer(1)))
    ensures !Sole(MendedCells(), [Ref(1), Ref(2)] + [Ref(0)], 0)
    ensures !Sole(MendedCells(), [Ref(1), Ref(2)] + [Ref(0)], 1)
    ensures Sole(MendedCells(), [Ref(1), Ref(2)] + [Ref(0)], 2)
  {
    var a, b, c := One(2, Struct, Plain(1)), One(2, Struct, Ref(0)), One(1, Box, Ref(1));
    MeansThree(a, b, c, 1);
    hide Sole, Means;
    SoleThree(a, b, c, Ref(1), Ref(2), Ref(0), 0);
    SoleThree(a, b, c, Ref(1), Ref(2), Ref(0), 1);
    SoleThree(a, b, c, Ref(1), Ref(2), Ref(0), 2);
  }
}
