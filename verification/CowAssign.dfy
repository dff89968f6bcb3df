/** Assignments through a name: `a.b.c = v`, `xs[i].f = v`, `b.set(v)`; and exactly when one is an
 *  update of that name's value alone. */
module CowAssign {
  import opened HeapModel
  import opened ValueMeaning
  import opened ObjectHeap
  import opened CopyOnWrite
  import opened CowPath
  import opened CowCondition
  import opened CowCycles
  import opened CowWrite
  import opened CowExact

  /* -------------------------------------------------------- what the names stand for */

  /** Every name stands for what it stood for. */
  ghost predicate SameNames(before: seq<Cell>, old_: seq<Value>, after: seq<Cell>, now: seq<Value>) {
    |now| == |old_| && forall y, t | 0 <= y < |old_| && Means(before, old_[y], t) :: Means(after, now[y], t)
  }

  /** Name x stands for its old value t with the part at `slots` replaced by u; every other name
   *  stands for what it did. */
  ghost predicate Updated(before: seq<Cell>, old_: seq<Value>, after: seq<Cell>, now: seq<Value>, x: nat,
                          slots: seq<nat>, t: Tree, u: Tree) {
    x < |now| == |old_| && Means(after, now[x], Update(t, slots, u))
    && forall y, s | 0 <= y < |old_| && y != x && Means(before, old_[y], s) :: Means(after, now[y], s)
  }

  /** The condition on the counts, before an assignment of v through name x: see GoodFrom. */
  ghost predicate Harmless(cells: seq<Cell>, vars: seq<Value>, v: Value, x: nat, t: Tree, path: seq<nat>,
                           target: Target)
    requires x < |vars| && Means(cells, vars[x], t) && Reaches(t, path, target)
  {
    ReachedNode(t, path, target);
    Good(cells, vars + [v], vars[x].a, t, path, target)
  }

  /** The objects of the path that such an assignment leaves in place: see Staying. */
  ghost function Fixed(cells: seq<Cell>, vars: seq<Value>, v: Value, x: nat, t: Tree, path: seq<nat>, target: Target):
    set<nat>
    requires x < |vars| && Means(cells, vars[x], t) && Reaches(t, path, target)
  {
    ReachedNode(t, path, target);
    Staying(cells, vars + [v], vars[x].a, t, path, target)
  }

  lemma KeptNames(before: seq<Cell>, old_: seq<Value>, mid: seq<Cell>, after: seq<Cell>, now: seq<Value>,
                  extra: seq<Value>)
    requires SameNames(before, old_, mid, now) && Kept(mid, after) && Counted(after, now + extra)
    ensures SameNames(before, old_, after, now)
  {
    hide Means, Kept, Positive, Shaped, Balanced;
    forall y, t | 0 <= y < |old_| && Means(before, old_[y], t) ensures Means(after, now[y], t) {
      if now[y].Ref? {
        assert (now + extra)[y] == now[y];
        Held(after, now + extra, now[y].a);
      }
      KeptValue(mid, after, now[y], t);
    }
  }

  lemma SelfNames(cells: seq<Cell>, vars: seq<Value>)
    ensures SameNames(cells, vars, cells, vars)
  {}

  lemma NamesMean(before: seq<Cell>, old_: seq<Value>, after: seq<Cell>, now: seq<Value>, x: nat, t: Tree)
    requires SameNames(before, old_, after, now) && x < |old_| && Means(before, old_[x], t)
    ensures Means(after, now[x], t)
  {}

  lemma NameMeans(cells: seq<Cell>, vars: seq<Value>, v: Value, x: nat) returns (t: Tree)
    requires Sound(cells, vars + [v]) && x < |vars|
    ensures Means(cells, vars[x], t)
  {
    var rank :| Ranked(cells, rank);
    assert (vars + [v])[x] == vars[x];
    if vars[x].Ref? { Held(cells, vars + [v], vars[x].a); }
    t := HasMeaning(cells, rank, vars[x]);
  }

  lemma HeldLast(cells: seq<Cell>, held: seq<Value>, v: Value)
    requires Counted(cells, held + [v])
    ensures v.Ref? ==> Live(cells, v.a)
  {
    if v.Ref? {
      assert (held + [v])[|held|] == v;
      Held(cells, held + [v], v.a);
    }
  }

  /* -------------------------------------------------------- the name's own object */

  /** A shared root is replaced by its copy. */
  lemma RootHeld(vars: seq<Value>, v: Value, x: nat, u: Value)
    requires x < |vars|
    ensures forall a: nat :: Occ((vars + [v]) + [u], a) == Occ((vars[x := u] + [v]) + [vars[x]], a)
  {
    hide Occ;
    forall a: nat ensures Occ((vars + [v]) + [u], a) == Occ((vars[x := u] + [v]) + [vars[x]], a) {
      OccUpdate(vars, x, u, a);
      OccAppend(vars + [v], [u], a);
      OccAppend(vars, [v], a);
      OccAppend(vars[x := u] + [v], [vars[x]], a);
      OccAppend(vars[x := u], [v], a);
    }
  }

  lemma RootNames(before: seq<Cell>, vars: seq<Value>, after: seq<Cell>, v: Value, x: nat, u: Value)
    requires Sound(before, vars + [v]) && x < |vars| && vars[x].Ref? && u.Ref?
    requires Kept(before, after) && Grown(before, after) && Twins(after, vars[x], u)
    ensures SameNames(before, vars, after, vars[x := u])
  {
    hide Means, Kept, Positive, Acyclic, Shaped, Balanced;
    forall y, t | 0 <= y < |vars| && Means(before, vars[y], t) ensures Means(after, vars[x := u][y], t) {
      if vars[y].Ref? {
        assert (vars + [v])[y] == vars[y];
        Held(before, vars + [v], vars[y].a);
      }
      KeptValue(before, after, vars[y], t);
    }
  }

  lemma RootRoute(cells: seq<Cell>, others: seq<Value>, x: nat, a: nat)
    requires x < |others| && others[x] == Ref(a) && Live(cells, a)
    ensures Route(cells, others, x, [], [a]) && (Alone(cells, others, [a]) <==> Sole(cells, others, a))
  {
    var chain := [a];
    assert chain[0] == a;
  }

  /** After the root's old object is let go, only the name holds the copy. */
  lemma RootAlone(c1: seq<Cell>, c2: seq<Cell>, vars: seq<Value>, v: Value, r: nat, x: nat, u: nat)
    requires Counted(c1, (vars + [v]) + [Ref(r)]) && Counted(c2, vars + [v]) && Pruned(c1, c2)
    requires x < |vars| && vars[x] == Ref(u) && Live(c1, u) && c1[u].rc == 1
    ensures Live(c2, u) && Sole(c2, vars + [v], u)
  {
    hide Occ, InDeg;
    assert (vars + [v])[x] == Ref(u);
    OccSome(vars + [v], u);
    Held(c2, vars + [v], u);
    HeldCount(c1, vars + [v], [Ref(r)], u);
    PrunedInDeg(c1, c2, u);
  }

  lemma {:induction false} PrunedInDeg(before: seq<Cell>, after: seq<Cell>, a: nat)
    requires Pruned(before, after)
    ensures InDeg(after, a) <= InDeg(before, a)
  {
    if before != [] {
      PrunedInDeg(before[1..], after[1..], a);
    }
  }

  /** The root has other holders, so letting go of it frees nothing. */
  lemma RootStays(c0: seq<Cell>, c1: seq<Cell>, vars: seq<Value>, v: Value, x: nat, r: nat, u: nat)
    requires Counted(c0, vars + [v]) && Uniqued(c0, c1, r, u) && x < |vars| && vars[x] == Ref(r) && Live(c0, r)
    requires c0[r].rc > 1
    requires Counted(c1, (vars[x := Ref(u)] + [v]) + [Ref(r)]) && Live(c1, r) && r < |c0| && u >= |c0|
    ensures c1[r].rc > 1
  {
    hide Occ, InDeg, Uniqued;
    UniquedInDeg(c0, c1, r, u, r);
    HeldCount(c1, vars[x := Ref(u)] + [v], [Ref(r)], r);
    OccOne(Ref(r), r);
    OccAppend(vars[x := Ref(u)], [v], r);
    OccAppend(vars, [v], r);
    OccUpdate(vars, x, Ref(u), r);
    OccOne(Ref(u), r);
    HeldCount(c0, vars + [v], [], r) by { assert (vars + [v]) + [] == vars + [v]; }
    OccNone(r);
  }

  /** The condition on the root, when it is copied: what is below it is shared as it was. */
  lemma RootGood(c0: seq<Cell>, c1: seq<Cell>, c2: seq<Cell>, vars: seq<Value>, v: Value, x: nat, r: nat, u: nat,
                 t: Tree, path: seq<nat>, target: Target)
    requires Sound(c0, vars + [v]) && Uniqued(c0, c1, r, u) && Grown(c0, c1) && x < |vars| && vars[x] == Ref(r)
    requires Live(c0, r)
    requires Grown(c1, c2) && |c2| == |c1| && Means(c0, Ref(r), t) && Means(c1, Ref(u), t) && Means(c2, Ref(u), t)
    requires Reaches(t, path, target) && u >= |c0| && Live(c1, u) && InDeg(c1, u) == 0
    ensures GoodFrom(c0, vars + [v], r, t, !t.kind.Box?, t.kind.Box?, path, target)
         == GoodFrom(c2, vars[x := Ref(u)] + [v], u, t, false, false, path, target)
  {
    var rank :| Ranked(c0, rank);
    var o1, o2 := vars + [v], vars[x := Ref(u)] + [v];
    assert o1 + [] == o1;
    assert Source(c0, r) < |c0| by { SourceRank(c0, rank, r); }
    var s := Beneath(c0, c1, rank, r);
    BeneathClosed(c0, c1, rank, r, u);
    hide Closed, GoodFrom, Reaches, Means, Counted, Acyclic, Beneath, Uniqued, Ranked, InDeg, Occ, Source;
    UniquedGood(c0, c1, o1, [], rank, r, u, t, path, target) by { SoundBalanced(c0, o1 + []); }
    RootCalm(c1, c2, vars, v, x, r, u, s);
    GoodSame(c1, c2, o1, o2, s, u, t, false, false, path, target);
  }

  /** And what stays below it, stays. */
  lemma RootStaying(c0: seq<Cell>, c1: seq<Cell>, c2: seq<Cell>, vars: seq<Value>, v: Value, x: nat, r: nat, u: nat,
                    t: Tree, path: seq<nat>, target: Target)
    requires Sound(c0, vars + [v]) && Uniqued(c0, c1, r, u) && Grown(c0, c1) && x < |vars| && vars[x] == Ref(r)
    requires Live(c0, r) && !Sole(c0, vars + [v], r)
    requires Grown(c1, c2) && |c2| == |c1| && Means(c0, Ref(r), t) && Means(c1, Ref(u), t) && Means(c2, Ref(u), t)
    requires Reaches(t, path, target) && u >= |c0| && Live(c1, u) && InDeg(c1, u) == 0
    ensures Shifted(c0, Staying(c0, vars + [v], r, t, path, target), c2,
                    Members([u]) + StaysFrom(c2, vars[x := Ref(u)] + [v], u, t, false, false, path, target))
  {
    var rank :| Ranked(c0, rank);
    var o1, o2 := vars + [v], vars[x := Ref(u)] + [v];
    assert o1 + [] == o1;
    assert Source(c0, r) < |c0| by { SourceRank(c0, rank, r); }
    var s := Beneath(c0, c1, rank, r);
    BeneathClosed(c0, c1, rank, r, u);
    hide Closed, StaysFrom, Reaches, Means, Counted, Acyclic, Beneath, Uniqued, Ranked, InDeg, Occ, Source, Grown,
      Shifted, Members, Sole;
    UniquedStays(c0, c1, o1, [], rank, r, u, t, path, target) by { SoundBalanced(c0, o1 + []); }
    RootCalm(c1, c2, vars, v, x, r, u, s);
    StaysFromSame(c1, c2, o1, o2, s, u, t, false, false, path, target);
    GrownThrough(c0, c1, c2);
    MembersOne(u);
    RootShifted(c0, c2, StaysFrom(c0, o1, r, t, !t.kind.Box?, t.kind.Box?, path, target),
                StaysFrom(c2, o2, u, t, false, false, path, target), u);
  }

  lemma RootShifted(c0: seq<Cell>, c2: seq<Cell>, was: set<nat>, now: set<nat>, u: nat)
    requires Grown(c0, c2) && Joined(was, now, |c0|) && u >= |c0|
    ensures Shifted(c0, {} + was, c2, {u} + now)
  {}

  /** A root that is its name's own stays itself. */
  lemma RootStaysItself(cells: seq<Cell>, others: seq<Value>, r: nat, t: Tree, path: seq<nat>, target: Target)
    requires Means(cells, Ref(r), t) && Reaches(t, path, target) && Sole(cells, others, r)
    ensures Shifted(cells, Staying(cells, others, r, t, path, target), cells,
                    Members([r]) + StaysFrom(cells, others, r, t, false, false, path, target))
  {
    hide StaysFrom, Means, Reaches, Members, Sole;
    MembersOne(r);
  }

  lemma RootCalm(c1: seq<Cell>, c2: seq<Cell>, vars: seq<Value>, v: Value, x: nat, r: nat, u: nat, s: set<nat>)
    requires Grown(c1, c2) && |c2| == |c1| && x < |vars| && vars[x] == Ref(r) && InDeg(c1, u) == 0
    requires Closed(c1, s) && r !in s
    ensures CalmFor(c1, vars + [v], c2, vars[x := Ref(u)] + [v], s)
  {
    hide InDeg, Occ;
    forall a, b: nat | a in s && Live(c1, a) && Ref(b) in c1[a].kids
      ensures Sole(c2, vars[x := Ref(u)] + [v], b) <==> Sole(c1, vars + [v], b)
    {
      var k :| 0 <= k < |c1[a].kids| && c1[a].kids[k] == Ref(b);
      assert c1[a].kids[k].a in s;
      InDegHolds(c1, a, b);
      OccSome(c1[a].kids, b);
      GrownInDeg(c1, c2, b);
      OccAppend(vars, [v], b);
      OccAppend(vars[x := Ref(u)], [v], b);
      OccUpdate(vars, x, Ref(u), b);
      OccOne(Ref(r), b);
      OccOne(Ref(u), b);
    }
  }

  /* -------------------------------------------------------- along the path */

  /** What an assignment is about: the value t of its name, and where in it to write.  `good` is whether
   *  the condition held to start with, `fixed` what was in place in the heap `base` then. */
  datatype Goal = Goal(t: Tree, path: seq<nat>, target: Target, good: bool, base: seq<Cell>, fixed: set<nat>)

  /** j levels of the path are read: the write so far, and that the rest of the path means below it
   *  what the whole path means below the name. */
  ghost predicate Walked(cells: seq<Cell>, others: seq<Value>, w: Trail, j: nat, goal: Goal) {
    |w.chain| > 0 && Arrived(cells, others, w, w.chain[|w.chain| - 1]) && j <= |goal.path|
    && var p, rest, target := w.chain[|w.chain| - 1], goal.path[j..], goal.target;
    && PlainPath(w.end, rest, target)
    && Reaches(goal.t, goal.path, target) == Reaches(w.end, rest, target)
    && Slots(goal.t, goal.path, target) == w.path + Slots(w.end, rest, target)
    && (Reaches(w.end, rest, target) ==>
          (goal.good <==>
             Alone(cells, others, w.chain) && GoodFrom(cells, others, p, w.end, false, false, rest, target))
          && Shifted(goal.base, goal.fixed, cells,
                     Members(w.chain) + StaysFrom(cells, others, p, w.end, false, false, rest, target)))
  }

  /** The write so far goes one level on, by slot i. */
  function Onward(w: Trail, longer: seq<nat>, i: nat): Trail
    requires Steps(CoreTree(w.end, false), i)
  {
    Trail(w.x, w.path + FirstSlots(Depth(w.end, false)) + [i], longer, CoreTree(w.end, false).kids[i])
  }

  lemma WalkStart(cells: seq<Cell>, others: seq<Value>, x: nat, path: seq<nat>, a: nat, t: Tree, target: Target,
                  good: bool, base: seq<Cell>, fixed: set<nat>)
    requires Route(cells, others, x, [], [a]) && Alone(cells, others, [a]) && Means(cells, Ref(a), t)
    requires PlainPath(t, path, target)
    requires Reaches(t, path, target) ==>
        Shifted(base, fixed, cells, Members([a]) + StaysFrom(cells, others, a, t, false, false, path, target))
    requires Reaches(t, path, target) ==> (GoodFrom(cells, others, a, t, false, false, path, target) <==> good)
    ensures Walked(cells, others, Trail(x, [], [a], t), 0, Goal(t, path, target, good, base, fixed))
  {
    hide Shifted, StaysFrom, GoodFrom;
    assert path[0..] == path;
  }

  lemma WalkDone(cells: seq<Cell>, others: seq<Value>, w: Trail, goal: Goal)
    requires Walked(cells, others, w, |goal.path|, goal)
    ensures |w.chain| > 0 && Arrived(cells, others, w, w.chain[|w.chain| - 1])
    ensures Reaches(goal.t, goal.path, goal.target) <==> Lands(CoreTree(w.end, goal.target.Content?), goal.target)
    ensures Slots(goal.t, goal.path, goal.target)
         == w.path + FirstSlots(Depth(w.end, goal.target.Content?)) + [SlotOf(goal.target)]
    ensures var p, setting := w.chain[|w.chain| - 1], goal.target.Content?;
      Lands(CoreTree(w.end, setting), goal.target) ==>
        (goal.good <==>
           Alone(cells, others, w.chain) && !Look(cells, others, p, w.end, setting, false, false, Clean).Stuck?)
        && Shifted(goal.base, goal.fixed, cells,
                   Members(w.chain) + Stays(cells, others, p, w.end, setting, false, false, !goal.target.Elem?))
  {
    hide Route, Alone, Means, Look, Shifted, Stays;
    assert goal.path[|goal.path|..] == [];
  }

  /** One level of the path, in the value. */
  lemma OneLevel(end: Tree, path: seq<nat>, j: nat, target: Target)
    requires j < |path| && PlainPath(end, path[j..], target)
    ensures path[j..] == [path[j]] + path[j + 1..]
    ensures var core := CoreTree(end, false);
      (Reaches(end, path[j..], target) <==> Steps(core, path[j]) && Reaches(core.kids[path[j]], path[j + 1..], target))
      && (Steps(core, path[j]) ==>
            PlainPath(core.kids[path[j]], path[j + 1..], target)
            && (core.kids[path[j]].Node? ==> !core.kids[path[j]].kind.Other?)
            && Slots(end, path[j..], target)
               == FirstSlots(Depth(end, false)) + ([path[j]] + Slots(core.kids[path[j]], path[j + 1..], target)))
      && (Steps(core, path[j]) && core.kids[path[j]].Leaf? ==> !Reaches(core.kids[path[j]], path[j + 1..], target))
  {
    assert path[j..][0] == path[j] && path[j..][1..] == path[j + 1..];
    var core := CoreTree(end, false);
    if Steps(core, path[j]) {
      PlainTop(core.kids[path[j]], path[j + 1..], target);
      LeafStays(core.kids[path[j]], path[j + 1..], target);
    }
  }

  lemma PlainTop(t: Tree, path: seq<nat>, target: Target)
    requires PlainPath(t, path, target)
    ensures t.Node? ==> !t.kind.Other?
  {}

  lemma LeafStays(t: Tree, path: seq<nat>, target: Target)
    ensures t.Leaf? ==> !Reaches(t, path, target)
  {}

  lemma WalkStep(c0: seq<Cell>, c1: seq<Cell>, others: seq<Value>, w: Trail, longer: seq<nat>, j: nat, q: nat,
                 goal: Goal)
    requires Walked(c0, others, w, j, goal) && j < |goal.path|
    requires Means(c0, Ref(w.chain[|w.chain| - 1]), w.end) && Steps(CoreTree(w.end, false), goal.path[j])
    requires LevelDone(c0, c1, others, w.x, w.path, w.chain, longer, w.chain[|w.chain| - 1], w.end, goal.path[j], q,
                       goal.path[j + 1..], goal.target)
    ensures Walked(c1, others, Onward(w, longer, goal.path[j]), j + 1, goal)
  {
    hide Route, Alone, Means, GoodFrom, Reaches, Slots, PlainPath, Kept, Shifted, StaysFrom, Members;
    var path, target, p := goal.path, goal.target, w.chain[|w.chain| - 1];
    OneLevel(w.end, path, j, target);
    var u := CoreTree(w.end, false).kids[path[j]];
    if Reaches(u, path[j + 1..], target) {
      ShiftedThrough(goal.base, goal.fixed, c0,
                     Members(w.chain) + StaysFrom(c0, others, p, w.end, false, false, path[j..], target),
                     c1, Members(longer) + StaysFrom(c1, others, q, u, false, false, path[j + 1..], target));
    }
    var rest := Slots(u, path[j + 1..], target);
    assert w.path + (FirstSlots(Depth(w.end, false)) + ([path[j]] + rest))
         == (w.path + FirstSlots(Depth(w.end, false)) + [path[j]]) + rest;
  }

  lemma TempsMore(temps: seq<Value>, chain: seq<nat>, longer: seq<nat>, q: nat)
    requires Temps(temps, chain) && chain <= longer && longer != [] && longer[|longer| - 1] == q
    ensures Temps(temps + [Ref(q)], longer)
  {
    forall k | 0 <= k < |temps| ensures temps[k].Ref? && temps[k].a in longer {
      var m :| 0 <= m < |chain| && chain[m] == temps[k].a;
      assert longer[m] == chain[m];
    }
    assert longer[|longer| - 1] in longer;
  }

  /* -------------------------------------------------------- the store */

  /** A store at the end of a route that is its own. */
  ghost predicate Written(before: seq<Cell>, after: seq<Cell>, vars: seq<Value>, x: nat, path: seq<nat>, v: Value)
    requires x < |vars|
  {
    && (forall y, t | 0 <= y < |vars| && y != x && Means(before, vars[y], t) :: Means(after, vars[y], t))
    && (forall t, u | Means(before, vars[x], t) && Means(before, v, u) :: Means(after, vars[x], Update(t, path, u)))
  }

  lemma OffMembers(cells: seq<Cell>, others: seq<Value>, x: nat, path: seq<nat>, chain: seq<nat>, y: nat)
    requires Own(cells, others, x, path, chain) && y < |others| && y != x
    ensures others[y].Ref? ==> others[y].a !in Members(chain)
  {
    hide Own;
    if others[y].Ref? && others[y].a in Members(chain) {
      var k :| 0 <= k < |chain| && chain[k] == others[y].a;
      OnlyRoot(cells, others, x, path, chain, k, y);
    }
  }

  lemma PutWritten(cells: seq<Cell>, vars: seq<Value>, v: Value, x: nat, path: seq<nat>, chain: seq<nat>)
    requires Own(cells, vars + [v], x, path, chain) && |path| == |chain| && x < |vars|
    requires chain[|chain| - 1] < |cells| && path[|path| - 1] < |Kids(cells[chain[|chain| - 1]])|
    ensures Written(cells, Put(cells, chain[|chain| - 1], path[|path| - 1], v), vars, x, path, v)
  {
    var others := vars + [v];
    ChainLast(cells, others, x, path, chain);
    hide Own, Means, Update;
    var after := Put(cells, chain[|chain| - 1], path[|path| - 1], v);
    WriteApart(cells, others, x, path, chain, path[|path| - 1], v);
    assert others[|vars|] == v;
    OffMembers(cells, others, x, path, chain, |vars|);
    forall y, t | 0 <= y < |vars| && y != x && Means(cells, vars[y], t) ensures Means(after, vars[y], t) {
      assert others[y] == vars[y];
      OffMembers(cells, others, x, path, chain, y);
      MeansApart(cells, after, Members(chain), vars[y], t);
    }
    forall t, u | Means(cells, vars[x], t) && Means(cells, v, u) ensures Means(after, vars[x], Update(t, path, u)) {
      WriteAlong(cells, others, x, path, chain, v, u, 0, t);
      assert path[0..] == path;
    }
  }

  /** The route does not look at the slot past its end. */
  lemma OwnSpare(cells: seq<Cell>, others: seq<Value>, x: nat, path: seq<nat>, chain: seq<nat>, i: nat)
    requires Own(cells, others, x, path, chain) && |path| == |chain| - 1
    ensures Own(cells, others, x, path + [i], chain)
  {
    forall k | 0 <= k < |chain| ensures Live(cells, chain[k]) && Linked(cells, path + [i], chain, k) {
      assert Live(cells, chain[k]) && Linked(cells, path, chain, k);
    }
  }

  lemma OwnStore(mid: seq<Cell>, vars: seq<Value>, v: Value, temps: seq<Value>, x: nat, full: seq<nat>, chain: seq<nat>,
                 d: nat, i: nat)
    requires Sound(mid, (vars + [v]) + temps) && Route(mid, vars + [v], x, full, chain) && Alone(mid, vars + [v], chain)
    requires |full| == |chain| - 1 && d == chain[|chain| - 1] && Live(mid, d) && i < |mid[d].kids| && x < |vars|
    ensures Acyclic(Put(mid, d, i, v)) && Written(mid, Put(mid, d, i, v), vars, x, full + [i], v)
  {
    hide Own, Balanced, Positive, Shaped, Acyclic, Written;
    assert Own(mid, vars + [v], x, full, chain) by { OwnBoth(mid, vars + [v], x, full, chain); }
    OwnSpare(mid, vars + [v], x, full, chain, i);
    OthersLive(mid, vars + [v], temps);
    assert (vars + [v])[|vars|] == v;
    OffMembers(mid, vars + [v], x, full, chain, |vars|);
    WriteAcyclic(mid, vars + [v], x, full, chain, i, v);
    PutWritten(mid, vars, v, x, full + [i], chain);
  }

  lemma OwnBoth(cells: seq<Cell>, others: seq<Value>, x: nat, path: seq<nat>, chain: seq<nat>)
    requires Route(cells, others, x, path, chain) && Alone(cells, others, chain)
    ensures Own(cells, others, x, path, chain)
  {}

  lemma KeptWritten(before: seq<Cell>, mid: seq<Cell>, after: seq<Cell>, vars: seq<Value>, x: nat, path: seq<nat>,
                    v: Value)
    requires x < |vars| && Written(before, mid, vars, x, path, v) && Kept(mid, after) && Counted(after, vars)
    ensures Written(before, after, vars, x, path, v)
  {
    hide Balanced, Means, Update, Kept;
    forall y | 0 <= y < |vars| && vars[y].Ref? ensures Live(after, vars[y].a) { Held(after, vars, vars[y].a); }
    forall y, t | 0 <= y < |vars| && y != x && Means(before, vars[y], t) ensures Means(after, vars[y], t) {
      KeptValue(mid, after, vars[y], t);
    }
    forall t, u | Means(before, vars[x], t) && Means(before, v, u) ensures Means(after, vars[x], Update(t, path, u)) {
      KeptValue(mid, after, vars[x], Update(t, path, u));
    }
  }

  /* -------------------------------------------------------- assignments */

  lemma GoodUncopied(cells: seq<Cell>, others: seq<Value>, a: nat, t: Tree, path: seq<nat>, target: Target)
    requires Means(cells, Ref(a), t) && Reaches(t, path, target) && Sole(cells, others, a)
    ensures Good(cells, others, a, t, path, target) == GoodFrom(cells, others, a, t, false, false, path, target)
  {
    hide GoodFrom, Means, Reaches;
  }

  lemma GoodCopiedRoot(cells: seq<Cell>, others: seq<Value>, a: nat, t: Tree, path: seq<nat>, target: Target)
    requires Means(cells, Ref(a), t) && Reaches(t, path, target) && !Sole(cells, others, a)
    ensures Good(cells, others, a, t, path, target)
         == GoodFrom(cells, others, a, t, !t.kind.Box?, t.kind.Box?, path, target)
  {
    hide GoodFrom, Means, Reaches;
  }

  lemma LastTwo(vars: seq<Value>, v: Value)
    ensures (vars + [v])[|vars|] == v && (vars + [v]) + [] == vars + [v]
  {}

  /** The names: all the references there are outside the objects, but for what is in hand. */
  class Names {
    const heap: Heap
    var vars: seq<Value>

    constructor (h: Heap)
      ensures heap == h && vars == []
    {
      heap := h;
      vars := [];
    }

    /** UNIQ x, x, 1: the object a name holds becomes its own. */
    method UniqRoot(x: nat, ghost v: Value, ghost t: Tree, ghost path: seq<nat>, ghost target: Target)
      requires Ready(heap, vars + [v]) && x < |vars| && vars[x].Ref? && Means(heap.cells, vars[x], t)
      requires Live(heap.cells, vars[x].a) && CowKind(heap.cells[vars[x].a].kind)
      modifies heap, this`vars
      ensures Ready(heap, vars + [v]) && |vars| == |old(vars)| && vars[x].Ref? && vars == old(vars)[x := vars[x]]
      ensures SameNames(old(heap.cells), old(vars), heap.cells, vars) && Kept(old(heap.cells), heap.cells)
      ensures Means(heap.cells, vars[x], t)
      ensures Route(heap.cells, vars + [v], x, [], [vars[x].a]) && Alone(heap.cells, vars + [v], [vars[x].a])
      ensures Reaches(t, path, target) ==>
        GoodFrom(heap.cells, vars + [v], vars[x].a, t, false, false, path, target)
        == Good(old(heap.cells), old(vars) + [v], old(vars[x].a), t, path, target)
        && Shifted(old(heap.cells), Staying(old(heap.cells), old(vars) + [v], old(vars[x].a), t, path, target),
                   heap.cells, Members([vars[x].a])
                     + StaysFrom(heap.cells, vars + [v], vars[x].a, t, false, false, path,
                                                                target))
    {
      hide Route, Alone, Acyclic, Kept, InDeg, Occ, Pruned, Counted, Grown, SameNames, Sole, Means, Uniqued, GoodFrom,
        Good, Reaches, Twins, Lowered, Shifted, Staying, StaysFrom, Members;
      ghost var c0, others := heap.cells, vars + [v];
      var r := vars[x];
      SoleIsCount(c0, others, r.a);
      if heap.cells[r.a].rc <= 1 {
        RootRoute(c0, others, x, r.a);
        KeptSelf(c0);
        SelfNames(c0, vars);
        assert vars[x := vars[x]] == vars;
        if Reaches(t, path, target) {
          GoodUncopied(c0, others, r.a, t, path, target);
          RootStaysItself(c0, others, r.a, t, path, target);
        }
        return;
      }
      var u := CowUnique(heap, r, 1, others);
      ghost var c1 := heap.cells;
      UniquedTwins(c0, c1, r.a, u.a);
      RootNames(c0, vars, c1, v, x, u);
      NamesMean(c0, vars, c1, vars[x := u], x, t);
      assert others == vars + [v] && others == others + [] by { LastTwo(vars, v); }
      FreshUnheld(c1, others, others, [], u.a);
      RootHeld(vars, v, x, u);
      ReadySame(c1, others + [u], (vars[x := u] + [v]) + [r]);
      RootStays(c0, c1, vars, v, x, r.a, u.a);
      vars := vars[x := u];
      Release(heap, r, vars + [v]);
      ghost var c2 := heap.cells;
      LoweredSame(c1, r.a);
      KeptThrough(c0, c1, c2);
      KeptNames(c0, old(vars), c1, c2, vars, [v]);
      NamesMean(c0, old(vars), c2, vars, x, t);
      RootAlone(c1, c2, vars, v, r.a, x, u.a);
      RootRoute(c2, vars + [v], x, u.a);
      if Reaches(t, path, target) {
        GoodCopiedRoot(c0, others, r.a, t, path, target);
        RootGood(c0, c1, c2, old(vars), v, x, r.a, u.a, t, path, target);
        RootStaying(c0, c1, c2, old(vars), v, x, r.a, u.a, t, path, target);
      }
    }

    /** uniq_path: every level of the path but the last is read and made unique.  `found` is false
     *  where a level has no such slot, or it holds no object. */
    method Walk(x: nat, path: seq<nat>, ghost v: Value, ghost goal: Goal)
      returns (found: bool, p: nat, temps: seq<Value>, ghost w: Trail)
      requires Ready(heap, vars + [v]) && x < |vars| && vars[x].Ref? && goal.path == path
      requires Walked(heap.cells, vars + [v], Trail(x, [], [vars[x].a], goal.t), 0, goal)
      modifies heap
      ensures Ready(heap, (vars + [v]) + temps) && Kept(old(heap.cells), heap.cells)
      ensures !found ==> !Reaches(goal.t, path, goal.target)
      ensures found ==> |w.chain| > 0 && p == w.chain[|w.chain| - 1] && Temps(temps, w.chain) && w.x == x
      ensures found ==> Walked(heap.cells, vars + [v], w, |path|, goal)
    {
      hide Route, Alone, Kept, Means, Counted, Acyclic, Walked, PlainPath, Reaches, Slots, GoodFrom, LevelDone, Temps,
        CoreTree, Shifted, StaysFrom, Members;
      p, temps, w := vars[x].a, [], Trail(x, [], [vars[x].a], goal.t);
      var j := 0;
      KeptSelf(heap.cells);
      assert (vars + [v]) + temps == vars + [v];
      NoTemps(w.chain);
      while j < |path|
        invariant j <= |path| && |w.chain| > 0 && p == w.chain[|w.chain| - 1] && Temps(temps, w.chain) && w.x == x
        invariant Ready(heap, (vars + [v]) + temps) && Kept(old(heap.cells), heap.cells)
        invariant Walked(heap.cells, vars + [v], w, j, goal)
      {
        ghost var c0, others, rest := heap.cells, vars + [v], path[j + 1..];
        WalkedAt(c0, others, w, j, goal);
        OneLevel(w.end, path, j, goal.target);
        ghost var longer;
        var q;
        found, q, longer := Level(heap, p, path[j], w, others, temps, rest, goal.target);
        if !found { return; }
        WalkStep(c0, heap.cells, others, w, longer, j, q, goal);
        LevelEnds(c0, heap.cells, others, w, longer, p, path[j], q, rest, goal.target);
        KeptThrough(old(heap.cells), c0, heap.cells);
        TempsMore(temps, w.chain, longer, q);
        assert (vars + [v]) + (temps + [Ref(q)]) == ((vars + [v]) + temps) + [Ref(q)];
        p, temps, w := q, temps + [Ref(q)], Onward(w, longer, path[j]);
        j := j + 1;
      }
      found := true;
    }

    /** KILL: the temporaries of the path are let go. */
    method DropAll(temps: seq<Value>)
      requires Idle(heap, vars + temps)
      modifies heap
      ensures Idle(heap, vars) && Kept(old(heap.cells), heap.cells) && Pruned(old(heap.cells), heap.cells)
      ensures Acyclic(old(heap.cells)) ==> Acyclic(heap.cells)
    {
      hide Kept, Counted, Pruned, Acyclic;
      KeptSelf(heap.cells);
      PrunedSelf(heap.cells);
      var n := |temps|;
      assert temps[..n] == temps;
      while n > 0
        invariant n <= |temps| && Idle(heap, vars + temps[..n]) && Kept(old(heap.cells), heap.cells)
        invariant Pruned(old(heap.cells), heap.cells) && (Acyclic(old(heap.cells)) ==> Acyclic(heap.cells))
      {
        n := n - 1;
        assert vars + temps[..n + 1] == (vars + temps[..n]) + [temps[n]];
        HeldLast(heap.cells, vars + temps[..n], temps[n]);
        ghost var c0 := heap.cells;
        Release(heap, temps[n], vars + temps[..n]);
        KeptThrough(old(heap.cells), c0, heap.cells);
        PrunedThrough(old(heap.cells), c0, heap.cells);
      }
      assert vars + temps[..n] == vars;
    }

    /** After a fault: the value in hand and the temporaries are let go, and nothing else changes. */
    method Abandon(v: Value, temps: seq<Value>, ghost before: seq<Cell>, ghost vars0: seq<Value>)
      requires Ready(heap, (vars + [v]) + temps) && SameNames(before, vars0, heap.cells, vars)
      modifies heap
      ensures Ready(heap, vars) && SameNames(before, vars0, heap.cells, vars)
    {
      hide Kept, Counted, Acyclic, SameNames, Pruned;
      ghost var c3 := heap.cells;
      SwapHeld(vars, [v], temps);
      ReadySame(c3, (vars + [v]) + temps, (vars + temps) + [v]);
      HeldLast(c3, vars + temps, v);
      Release(heap, v, vars + temps);
      KeptNames(before, vars0, c3, heap.cells, vars, temps);
      ghost var c4 := heap.cells;
      DropAll(temps);
      assert vars + [] == vars;
      KeptNames(before, vars0, c4, heap.cells, vars, []);
    }

    /** An assignment through name x.  v is a reference in hand; it ends up stored, or let go of
     *  where the source faults.  What it does to the names is said by Outcome. */
    method Assign(x: nat, path: seq<nat>, target: Target, v: Value) returns (ok: bool)
      requires Ready(heap, vars + [v]) && x < |vars|
      requires forall t | Means(heap.cells, vars[x], t) :: PlainPath(t, path, target)
      modifies heap, this`vars
      ensures Idle(heap, vars) && |vars| == |old(vars)| && vars == old(vars)[x := vars[x]]
      ensures forall t | Means(old(heap.cells), old(vars[x]), t) :: ok == Reaches(t, path, target)
      ensures !ok ==> Acyclic(heap.cells) && SameNames(old(heap.cells), old(vars), heap.cells, vars)
      ensures forall a: nat | Live(old(heap.cells), a) ::
        Sole(old(heap.cells), old(vars) + [v], a) <==> old(heap.cells)[a].rc == 1
      ensures ok ==> Outcome(old(heap.cells), old(vars), v, heap.cells, vars, x, path, target)
    {
      hide Route, Alone, Kept, Means, Counted, Acyclic, PlainPath, Reaches, Slots, GoodFrom, Good, Lands, SameNames,
        Update, Updated, Walked, Temps, Pruned, FinalDone, Outcome, Harmless, CoreTree, Look, Sole, Shifted, Staying,
        StaysFrom, Stays, Members, Fixed;
      ghost var c0, vars0 := heap.cells, vars;
      forall a: nat | Live(c0, a) ensures Sole(c0, vars + [v], a) <==> c0[a].rc == 1 {
        SoleIsCount(c0, vars + [v], a);
      }
      ghost var t := NameMeans(c0, vars, v, x);
      ghost var good := Reaches(t, path, target) && Harmless(c0, vars, v, x, t, path, target);
      SameKind(c0, vars[x], t);
      OnlyTree(c0, vars[x], t);
      if vars[x].Plain? {
        LeafStays(t, path, target);
        HeldLast(c0, vars, v);
        SelfNames(c0, vars);
        Release(heap, v, vars);
        assert vars + [] == vars;
        KeptNames(c0, vars, c0, heap.cells, vars, []);
        return false;
      }
      PlainTop(t, path, target);
      UniqRoot(x, v, t, path, target);
      ghost var c1 := heap.cells;
      assert Reaches(t, path, target) ==>
          (GoodFrom(c1, vars + [v], vars[x].a, t, false, false, path, target) <==> good) by {
        if Reaches(t, path, target) { HarmlessIs(c0, vars0, v, x, t, path, target); }
      }
      ghost var fixed := if Reaches(t, path, target) then Fixed(c0, vars0, v, x, t, path, target) else {};
      if Reaches(t, path, target) { FixedIs(c0, vars0, v, x, t, path, target); }
      var found, p, temps;
      ghost var w, goal;
      goal := Goal(t, path, target, good, c0, fixed);
      WalkStart(c1, vars + [v], x, path, vars[x].a, t, target, good, c0, fixed);
      found, p, temps, w := Walk(x, path, v, goal);
      ghost var c2 := heap.cells;
      assert (vars + [v]) + temps == vars + ([v] + temps);
      KeptNames(c0, vars0, c1, c2, vars, [v] + temps);
      KeptThrough(c0, c1, c2);
      if !found {
        Abandon(v, temps, c0, vars0);
        return false;
      }
      WalkDone(c2, vars + [v], w, goal);
      ghost var full, chain, end := w.path, w.chain, w.end;
      ghost var mid, d, more;
      ok, mid, d, more := Final(heap, p, target, v, w, vars, temps);
      ghost var c3 := heap.cells;
      if !ok {
        KeptNames(c0, vars0, c2, c3, vars, [v] + temps);
        Abandon(v, temps, c0, vars0);
        return;
      }
      FinalParts(c2, mid, c3, vars + [v], (vars + [v]) + temps, x, full, chain, more, p, end, target.Content?,
                 !target.Elem?, d, SlotOf(target), v, c0, fixed);
      KeptNames(c0, vars0, c2, mid, vars, [v] + temps) by { assert (vars + [v]) + temps == vars + ([v] + temps); }
      KeptThrough(c0, c2, mid);
      DropAll(temps);
      PrunedThrough(Put(mid, d, SlotOf(target), v), c3, heap.cells);
      KeptThrough(Put(mid, d, SlotOf(target), v), c3, heap.cells);
      TempsLonger(temps, chain, more);
      OutcomeIs(c0, vars0, mid, heap.cells, vars, v, temps, x, full + FirstSlots(|more|), chain
        + more, d, SlotOf(target), t,
                path, target, good, fixed);
    }
  }

  /** What an assignment that goes through leaves.  If the condition holds, the graph is acyclic
   *  still, and the name stands for its old value with the one part replaced, every other name for
   *  what it did.  And if it acted so, and the value is not the one that was there, the condition
   *  held.  In every case the graph is acyclic still exactly when v did not lead to an object of the
   *  path that was left in place. */
  ghost predicate Outcome(before: seq<Cell>, old_: seq<Value>, v: Value, after: seq<Cell>, now: seq<Value>, x: nat,
                          path: seq<nat>, target: Target)
    requires x < |old_|
  {
    forall t, u | Means(before, old_[x], t) && Means(before, v, u) && Reaches(t, path, target) ::
      (Harmless(before, old_, v, x, t, path, target) ==>
         Acyclic(after) && Updated(before, old_, after, now, x, Slots(t, path, target), t, u))
      && (Updated(before, old_, after, now, x, Slots(t, path, target), t, u) && At(t, Slots(t, path, target)) != u ==>
            Harmless(before, old_, v, x, t, path, target))
      && (Acyclic(after) <==> !Hits(before, v, Fixed(before, old_, v, x, t, path, target)))
  }

  lemma OnlyTree(cells: seq<Cell>, v: Value, t: Tree)
    requires Means(cells, v, t)
    ensures forall s | Means(cells, v, s) :: s == t
  {
    hide Means;
    forall s | Means(cells, v, s) ensures s == t { MeansOne(cells, v, s, t); }
  }

  lemma SameKind(cells: seq<Cell>, v: Value, t: Tree)
    requires Means(cells, v, t)
    ensures v.Plain? <==> t.Leaf?
    ensures v.Ref? ==> Live(cells, v.a) && cells[v.a].kind == t.kind
  {}

  lemma HarmlessIs(cells: seq<Cell>, vars: seq<Value>, v: Value, x: nat, t: Tree, path: seq<nat>, target: Target)
    requires x < |vars| && Means(cells, vars[x], t) && Reaches(t, path, target) && vars[x].Ref?
    ensures Harmless(cells, vars, v, x, t, path, target) == Good(cells, vars + [v], vars[x].a, t, path, target)
  {
    hide Means, Reaches, Good;
  }

  lemma FixedIs(cells: seq<Cell>, vars: seq<Value>, v: Value, x: nat, t: Tree, path: seq<nat>, target: Target)
    requires x < |vars| && Means(cells, vars[x], t) && Reaches(t, path, target) && vars[x].Ref?
    ensures Fixed(cells, vars, v, x, t, path, target) == Staying(cells, vars + [v], vars[x].a, t, path, target)
  {
    hide Means, Reaches, Staying;
  }

  lemma FinalParts(before: seq<Cell>, mid: seq<Cell>, after: seq<Cell>, others: seq<Value>, held: seq<Value>, x: nat,
                   path: seq<nat>, chain: seq<nat>, more: seq<nat>, p: nat, t: Tree, setting: bool, writes: bool,
                   d: nat, i: nat, v: Value, base: seq<Cell>, fixed: set<nat>)
    requires |chain| > 0 && |path| == |chain| - 1 && p == chain[|chain| - 1]
    requires Means(before, Ref(p), t)
    requires FinalDone(before, mid, after, others, held, x, path, chain, more, p, t, setting, writes, d, i, v)
    requires Shifted(base, fixed, before, Members(chain)
                                          + Stays(before, others, p, t, setting, false, false, writes))
    ensures Shifted(base, fixed, mid, Members(chain + more))
    ensures Sound(mid, held) && Kept(before, mid) && |more| == Depth(t, setting)
    ensures d == (chain + more)[|chain + more| - 1] && Live(mid, d) && i < |mid[d].kids|
    ensures Route(mid, others, x, path + FirstSlots(|more|), chain + more)
    ensures |path + FirstSlots(|more|)| == |chain + more| - 1
    ensures Alone(mid, others, chain + more)
        <==> Alone(before, others, chain) && !Look(before, others, p, t, setting, false, false, Clean).Stuck?
    ensures Pruned(Put(mid, d, i, v), after) && Kept(Put(mid, d, i, v), after)
    ensures (Acyclic(Put(mid, d, i, v)) ==> Acyclic(after))
  {
    hide Means, Look, Alone, Route, Kept, Pruned, Acyclic, Counted, CoreTree, Shifted, Stays, Members;
    ShiftedThrough(base, fixed, before, Members(chain) + Stays(before, others, p, t, setting, false, false, writes),
                   mid, Members(chain + more));
  }

  lemma TempsLonger(temps: seq<Value>, chain: seq<nat>, more: seq<nat>)
    requires Temps(temps, chain)
    ensures Temps(temps, chain + more)
  {}

  lemma OutcomeIs(before: seq<Cell>, old_: seq<Value>, mid: seq<Cell>, after: seq<Cell>, now: seq<Value>, v: Value,
                  temps: seq<Value>, x: nat, full: seq<nat>, chain: seq<nat>, d: nat, i: nat, t: Tree, path: seq<nat>,
                  target: Target, good: bool, fixed: set<nat>)
    requires Sound(before, old_ + [v]) && Sound(mid, (now + [v]) + temps) && SameNames(before, old_, mid, now)
    requires Kept(before, mid)
    requires x < |old_| == |now| && Means(before, old_[x], t) && Reaches(t, path, target) && Temps(temps, chain)
    requires Route(mid, now + [v], x, full, chain) && |full| == |chain| - 1 && d == chain[|chain| - 1]
    requires Live(mid, d) && i < |mid[d].kids| && Slots(t, path, target) == full + [i]
    requires Pruned(Put(mid, d, i, v), after) && Kept(Put(mid, d, i, v), after) && Counted(after, now)
    requires Acyclic(Put(mid, d, i, v)) ==> Acyclic(after)
    requires good <==> Harmless(before, old_, v, x, t, path, target)
    requires good <==> Alone(mid, now + [v], chain)
    requires fixed == Fixed(before, old_, v, x, t, path, target) && Shifted(before, fixed, mid, Members(chain))
    ensures Outcome(before, old_, v, after, now, x, path, target)
  {
    hide Route, Alone, Kept, Means, Counted, Acyclic, Reaches, Slots, SameNames, Update, Updated, Temps, Pruned,
      Harmless, Fixed, Shifted, Members, Hits;
    OnlyTree(before, old_[x], t);
    AcyclicExact(before, old_, mid, after, now, v, temps, x, full, chain, d, i, fixed);
    forall s, u | Means(before, old_[x], s) && Means(before, v, u) && Reaches(s, path, target)
      ensures s == t && (good ==> Acyclic(after) && Updated(before, old_, after, now, x, full + [i], t, u))
      ensures Updated(before, old_, after, now, x, full + [i], t, u) && At(t, full + [i]) != u ==> good
    {
      if good {
        GoodUpdate(before, old_, mid, after, now, v, temps, x, full, chain, d, i, t, u);
      } else if Updated(before, old_, after, now, x, full + [i], t, u) {
        BadUpdate(before, old_, mid, after, now, v, temps, x, full, chain, d, i, t, u);
      }
    }
  }

  lemma AcyclicExact(before: seq<Cell>, old_: seq<Value>, mid: seq<Cell>, after: seq<Cell>, now: seq<Value>, v: Value,
                     temps: seq<Value>, x: nat, full: seq<nat>, chain: seq<nat>, d: nat, i: nat, fixed: set<nat>)
    requires Sound(before, old_ + [v]) && Sound(mid, (now + [v]) + temps) && x < |now|
    requires Route(mid, now + [v], x, full, chain) && |full| == |chain| - 1 && d == chain[|chain| - 1]
    requires Live(mid, d) && i < |mid[d].kids| && Pruned(Put(mid, d, i, v), after) && Counted(after, now)
    requires Acyclic(Put(mid, d, i, v)) ==> Acyclic(after)
    requires Shifted(before, fixed, mid, Members(chain))
    ensures Acyclic(after) <==> !Hits(before, v, fixed)
  {
    hide Route, Acyclic, Balanced, Positive, Shaped, Pruned, Shifted, Members, Hits;
    HeldLast(before, old_, v);
    StoreExact(mid, after, now, v, temps, x, full, chain, d, i);
    if v.Ref? {
      HitsShifted(before, fixed, mid, Members(chain), v);
    } else {
      PlainHits(before, v, fixed);
      PlainHits(mid, v, Members(chain));
    }
  }

  lemma PlainHits(cells: seq<Cell>, v: Value, s: set<nat>)
    requires v.Plain?
    ensures !Hits(cells, v, s)
  {}

  lemma VKept(before: seq<Cell>, mid: seq<Cell>, now: seq<Value>, v: Value, temps: seq<Value>, u: Tree)
    requires Kept(before, mid) && Counted(mid, (now + [v]) + temps) && Means(before, v, u)
    ensures Means(mid, v, u)
  {
    hide Means, Kept, Positive, Shaped, Balanced;
    if v.Ref? {
      assert ((now + [v]) + temps)[|now|] == v;
      Held(mid, (now + [v]) + temps, v.a);
    }
    KeptValue(before, mid, v, u);
  }

  lemma GoodUpdate(before: seq<Cell>, old_: seq<Value>, mid: seq<Cell>, after: seq<Cell>, now: seq<Value>, v: Value,
                   temps: seq<Value>, x: nat, full: seq<nat>, chain: seq<nat>, d: nat, i: nat, t: Tree, u: Tree)
    requires Sound(mid, (now + [v]) + temps) && SameNames(before, old_, mid, now) && Kept(before, mid)
    requires x < |old_| == |now| && Means(before, old_[x], t) && Means(before, v, u)
    requires Route(mid, now + [v], x, full, chain) && Alone(mid, now + [v], chain) && |full| == |chain| - 1
    requires d == chain[|chain| - 1]
    requires Live(mid, d) && i < |mid[d].kids| && Kept(Put(mid, d, i, v), after) && Counted(after, now)
    requires Acyclic(Put(mid, d, i, v)) ==> Acyclic(after)
    ensures Acyclic(after) && Updated(before, old_, after, now, x, full + [i], t, u)
  {
    hide Means, Kept, Route, Alone, Counted, Acyclic, Update;
    VKept(before, mid, now, v, temps, u);
    OwnStore(mid, now, v, temps, x, full, chain, d, i);
    KeptWritten(mid, Put(mid, d, i, v), after, now, x, full + [i], v);
  }

  lemma BadUpdate(before: seq<Cell>, old_: seq<Value>, mid: seq<Cell>, after: seq<Cell>, now: seq<Value>, v: Value,
                  temps: seq<Value>, x: nat, full: seq<nat>, chain: seq<nat>, d: nat, i: nat, t: Tree, u: Tree)
    requires Sound(before, old_ + [v]) && Sound(mid, (now + [v]) + temps) && SameNames(before, old_, mid, now)
    requires Kept(before, mid)
    requires x < |old_| == |now| && Means(before, old_[x], t) && Means(before, v, u) && Temps(temps, chain)
    requires Route(mid, now + [v], x, full, chain) && !Alone(mid, now + [v], chain) && |full| == |chain| - 1
    requires d == chain[|chain| - 1]
    requires Live(mid, d) && i < |mid[d].kids| && Pruned(Put(mid, d, i, v), after)
    requires Updated(before, old_, after, now, x, full + [i], t, u)
    ensures At(t, full + [i]) == u
  {
    hide Means, Kept, Route, Alone, Counted, Acyclic, Update, Pruned;
    VKept(before, mid, now, v, temps, u);
    forall y, s | 0 <= y < |now| && y != x && Means(mid, now[y], s) ensures Means(after, now[y], s) {
      var s0 := NameMeans(before, old_, v, y);
      MeansOne(mid, now[y], s, s0);
    }
    StoreSeen(mid, after, now, v, temps, x, full, chain, d, i, t, u);
  }

  lemma NoTemps(chain: seq<nat>)
    ensures Temps([], chain)
  {}

  lemma WalkedAt(cells: seq<Cell>, others: seq<Value>, w: Trail, j: nat, goal: Goal)
    requires Walked(cells, others, w, j, goal)
    ensures |w.chain| > 0 && Arrived(cells, others, w, w.chain[|w.chain| - 1]) && j <= |goal.path|
    ensures PlainPath(w.end, goal.path[j..], goal.target)
    ensures Reaches(goal.t, goal.path, goal.target) == Reaches(w.end, goal.path[j..], goal.target)
  {
    hide Alone, Means, GoodFrom, Reaches, Slots, PlainPath, Shifted, StaysFrom, Members, Arrived;
  }

  lemma LevelEnds(before: seq<Cell>, after: seq<Cell>, others: seq<Value>, w: Trail, longer: seq<nat>, p: nat, i: nat,
                  q: nat, rest: seq<nat>, target: Target)
    requires Means(before, Ref(p), w.end) && Steps(CoreTree(w.end, false), i)
    requires LevelDone(before, after, others, w.x, w.path, w.chain, longer, p, w.end, i, q, rest, target)
    ensures Kept(before, after) && w.chain <= longer && longer != [] && longer[|longer| - 1] == q
  {
    hide Route, Alone, Means, GoodFrom, Reaches, Kept, Shifted, StaysFrom, Members;
  }
}
