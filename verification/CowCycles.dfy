/** When a write closes a cycle: exactly when what is written leads to an object of the path that the
 *  write leaves as it is (runtime/src/types.c). */
module CowCycles {
  import opened HeapModel
  import opened ValueMeaning
  import opened ObjectHeap
  import opened CopyOnWrite
  import opened CowPath
  import opened CowCondition
  import opened CowExact

  /** v leads to an object of s. */
  ghost predicate Hits(cells: seq<Cell>, v: Value, s: set<nat>) {
    exists r: seq<nat>, b: nat :: b in s && Leads(cells, v, r, b)
  }

  /* -------------------------------------------------------- what is not copied */

  /** The objects looked through inside a that stay in place; `dup` and `boxed` as in Look.  A struct
   *  or newtype is copied along with the Box it is in, and by own_inner where it `writes` its way
   *  down to the core; what a copied object holds is shared from then on. */
  ghost function Stays(cells: seq<Cell>, others: seq<Value>, a: nat, t: Tree, setting: bool, dup: bool, boxed: bool,
                       writes: bool): set<nat>
    requires Means(cells, Ref(a), t)
    decreases t
  {
    if !Thru(t, setting) then {}
    else
      Inside(cells, a, t);
      var w, k := cells[a].kids[0].a, t.kids[0].kind;
      var copied := StructLike(k) && (boxed || (writes && (dup || !Sole(cells, others, w))));
      (if copied then {} else {w}) + Stays(cells, others, w, t.kids[0], setting, copied, false, writes)
  }

  /** Below a, all the way to the object written.  A level that is copied is written back: to a field
   *  by way of own_inner, to an element without it. */
  ghost function StaysFrom(cells: seq<Cell>, others: seq<Value>, a: nat, t: Tree, dup: bool, boxed: bool,
                           path: seq<nat>, target: Target): set<nat>
    requires Means(cells, Ref(a), t) && Reaches(t, path, target)
    decreases |path|
  {
    var setting := Setting(path, target);
    if path == [] then Stays(cells, others, a, t, setting, dup, boxed, !target.Elem?)
    else
      var core := CoreTree(t, setting);
      var u := core.kids[path[0]];
      Inside(cells, Core(cells, a, t, setting), core);
      ReachedNode(u, path[1..], target);
      var b := cells[Core(cells, a, t, setting)].kids[path[0]].a;
      var copied := DupAtCore(t, setting, dup, boxed) || !Sole(cells, others, b);
      Stays(cells, others, a, t, setting, dup, boxed, copied && core.kind.Struct?) + (if copied then {} else {b})
      + StaysFrom(cells, others, b, u, copied && !u.kind.Box?, copied && u.kind.Box?, path[1..], target)
  }

  /** All of them, for an assignment through a name that refers to a. */
  ghost function Staying(cells: seq<Cell>, others: seq<Value>, a: nat, t: Tree, path: seq<nat>, target: Target):
    set<nat>
    requires Means(cells, Ref(a), t) && Reaches(t, path, target)
  {
    var copied := !Sole(cells, others, a);
    (if copied then {} else {a})
    + StaysFrom(cells, others, a, t, copied && !t.kind.Box?, copied && t.kind.Box?, path, target)
  }

  /* -------------------------------------------------------- the path, as it is rebuilt */

  predicate Joined(s: set<nat>, t: set<nat>, n: nat) {
    s <= t && forall b | b in t && b !in s :: b >= n
  }

  /** The objects of s have become those of t: new ones have joined them, and every other object is
   *  as it was. */
  ghost predicate Shifted(before: seq<Cell>, s: set<nat>, after: seq<Cell>, t: set<nat>) {
    |before| <= |after| && Joined(s, t, |before|)
    && forall b: nat | Live(before, b) && b !in t :: Live(after, b) && after[b].kids == before[b].kids
  }

  lemma ShiftedThrough(x: seq<Cell>, s: set<nat>, y: seq<Cell>, t: set<nat>, z: seq<Cell>, u: set<nat>)
    requires Shifted(x, s, y, t) && Shifted(y, t, z, u)
    ensures Shifted(x, s, z, u)
  {}

  lemma ShiftedMore(x: seq<Cell>, s: set<nat>, y: seq<Cell>, t: set<nat>, more: set<nat>)
    requires Shifted(x, s, y, t)
    ensures Shifted(x, s + more, y, t + more)
  {}

  lemma ShiftedGrown(x: seq<Cell>, y: seq<Cell>, s: set<nat>)
    requires Grown(x, y)
    ensures Shifted(x, s, y, s)
  {}

  /** So a value that led to one of the former leads to one of the latter. */
  lemma {:induction false} HitsOn(x: seq<Cell>, s: set<nat>, y: seq<Cell>, t: set<nat>, v: Value, r: seq<nat>, b: nat)
    requires Shifted(x, s, y, t) && Leads(x, v, r, b) && b in t
    ensures Hits(y, v, t)
    decreases |r|
  {
    if r == [] {
      assert Leads(y, v, [], b);
    } else if v.a in t {
      assert Leads(y, v, [], v.a);
    } else {
      HitsOn(x, s, y, t, x[v.a].kids[r[0]], r[1..], b);
      HitsUp(y, v, r[0], t);
    }
  }

  lemma HitsUp(cells: seq<Cell>, v: Value, i: nat, s: set<nat>)
    requires v.Ref? && Live(cells, v.a) && i < |cells[v.a].kids| && Hits(cells, cells[v.a].kids[i], s)
    ensures Hits(cells, v, s)
  {
    var r: seq<nat>, b: nat :| b in s && Leads(cells, cells[v.a].kids[i], r, b);
    assert ([i] + r)[1..] == r;
    assert Leads(cells, v, [i] + r, b);
  }

  lemma {:induction false} HitsBack(x: seq<Cell>, s: set<nat>, y: seq<Cell>, t: set<nat>, rank: seq<nat>, v: Value,
                                    r: seq<nat>, b: nat)
    requires Shifted(x, s, y, t) && Leads(y, v, r, b) && b in t && v.Ref? && Live(x, v.a) && Ranked(x, rank)
    ensures Hits(x, v, t)
    decreases |r|
  {
    if r == [] {
      assert Leads(x, v, [], b);
    } else if v.a in t {
      assert Leads(x, v, [], v.a);
    } else {
      LeadsRef(y, y[v.a].kids[r[0]], r[1..], b);
      assert Live(x, x[v.a].kids[r[0]].a);
      HitsBack(x, s, y, t, rank, y[v.a].kids[r[0]], r[1..], b);
      HitsUp(x, v, r[0], t);
    }
  }

  lemma HitsShifted(x: seq<Cell>, s: set<nat>, y: seq<Cell>, t: set<nat>, v: Value)
    requires Shifted(x, s, y, t) && Acyclic(x) && v.Ref? && Live(x, v.a)
    ensures Hits(x, v, s) <==> Hits(y, v, t)
  {
    if Hits(x, v, s) {
      var r: seq<nat>, b: nat :| b in s && Leads(x, v, r, b);
      HitsOn(x, s, y, t, v, r, b);
    }
    if Hits(y, v, t) {
      var rank :| Ranked(x, rank);
      var r: seq<nat>, b: nat :| b in t && Leads(y, v, r, b);
      HitsBack(x, s, y, t, rank, v, r, b);
      var q: seq<nat>, c: nat :| c in t && Leads(x, v, q, c);
      LeadsDown(x, rank, v, q, c);
      assert c in s;
    }
  }

  /* -------------------------------------------------------- the store */

  ghost function Lifted(cells: seq<Cell>, rank: seq<nat>, m: nat, d: nat): seq<nat> {
    seq(|rank|, a requires 0 <= a < |rank| => if Hits(cells, Ref(a), {d}) then rank[a] + m + 1 else rank[a])
  }

  /** A store of what does not lead to the object written closes no cycle. */
  lemma PutAcyclic(cells: seq<Cell>, d: nat, i: nat, v: Value)
    requires Acyclic(cells) && Live(cells, d) && i < |cells[d].kids| && (v.Ref? ==> Live(cells, v.a))
    requires !Hits(cells, v, {d})
    ensures Acyclic(Put(cells, d, i, v))
  {
    var rank :| Ranked(cells, rank);
    var m := MaxRank(rank);
    var after, up := Put(cells, d, i, v), Lifted(cells, rank, m, d);
    assert Leads(cells, Ref(d), [], d);
    forall a, k | 0 <= a < |after| && after[a].Obj? && 0 <= k < |after[a].kids| && after[a].kids[k].Ref?
      ensures Live(after, after[a].kids[k].a) && up[after[a].kids[k].a] < up[a]
    {
      var w := after[a].kids[k];
      if !(a == d && k == i) {
        assert cells[a].kids[k] == w;
        if Hits(cells, w, {d}) { HitsUp(cells, Ref(a), k, {d}); }
      } else {
        assert Hits(cells, Ref(d), {d});
      }
    }
    assert Ranked(after, up);
  }

  /** What is held from outside, and what it leads to, is not freed. */
  lemma {:induction false} LeadsPruned(put: seq<Cell>, after: seq<Cell>, held: seq<Value>, v: Value, r: seq<nat>,
                                       d: nat)
    requires Pruned(put, after) && Balanced(after, held) && Leads(put, v, r, d) && (v.Ref? ==> Live(after, v.a))
    ensures Leads(after, v, r, d) && Live(after, d)
    decreases |r|
  {
    if r != [] {
      var w := after[v.a].kids[r[0]];
      if w.Ref? { Referred(after, held, v.a, w.a); }
      LeadsPruned(put, after, held, w, r[1..], d);
    }
  }

  /** A store of what leads to the object written leaves a cycle, which keeps itself alive. */
  lemma StoreCyclic(mid: seq<Cell>, after: seq<Cell>, held: seq<Value>, v: Value, root: Value, path: seq<nat>,
                    r: seq<nat>, d: nat, i: nat)
    requires Acyclic(mid) && Live(mid, d) && i < |mid[d].kids| && v.Ref? && Live(mid, v.a) && Leads(mid, v, r, d)
    requires root.Ref? && root in held && Live(mid, root.a) && Leads(mid, root, path, d)
    requires Pruned(Put(mid, d, i, v), after) && Balanced(after, held)
    ensures !Acyclic(after)
  {
    var rank :| Ranked(mid, rank);
    var put := Put(mid, d, i, v);
    LeadsPut(mid, rank, root, path, d, i, v);
    LeadsPut(mid, rank, v, r, d, i, v);
    Held(after, held, root.a);
    LeadsPruned(put, after, held, root, path, d);
    assert after[d].kids[i] == v;
    Referred(after, held, d, v.a);
    LeadsPruned(put, after, held, v, r, d);
    if Acyclic(after) {
      var up :| Ranked(after, up);
      LeadsDown(after, up, v, r, d);
    }
  }

  lemma {:induction false} HitsAlong(cells: seq<Cell>, others: seq<Value>, x: nat, path: seq<nat>, chain: seq<nat>,
                                     v: Value)
    requires Route(cells, others, x, path, chain)
    ensures Hits(cells, v, Members(chain)) <==> Hits(cells, v, {chain[|chain| - 1]})
  {
    var n := |chain| - 1;
    if Hits(cells, v, Members(chain)) {
      var r: seq<nat>, b: nat :| b in Members(chain) && Leads(cells, v, r, b);
      var k: nat :| k < |chain| && chain[k] == b;
      RouteLeads(cells, others, x, path, chain, k, n);
      LeadsOn(cells, v, r, b, path[k..n], chain[n]);
    }
    if Hits(cells, v, {chain[n]}) {
      var r: seq<nat>, b: nat :| b in {chain[n]} && Leads(cells, v, r, b);
      assert b in Members(chain) by { assert chain[n] == b; }
    }
  }

  /** So the graph is acyclic after the store exactly when what is stored led to no object of the
   *  route. */
  lemma StoreExact(mid: seq<Cell>, after: seq<Cell>, vars: seq<Value>, v: Value, temps: seq<Value>, x: nat,
                   path: seq<nat>, chain: seq<nat>, d: nat, i: nat)
    requires Sound(mid, (vars + [v]) + temps) && Route(mid, vars + [v], x, path, chain) && |path| == |chain| - 1
    requires x < |vars| && d == chain[|chain| - 1] && Live(mid, d) && i < |mid[d].kids|
    requires Pruned(Put(mid, d, i, v), after) && Balanced(after, vars)
    requires Acyclic(Put(mid, d, i, v)) ==> Acyclic(after)
    ensures Acyclic(after) <==> !Hits(mid, v, Members(chain))
  {
    var others := vars + [v];
    OthersLive(mid, others, temps);
    HitsAlong(mid, others, x, path, chain, v);
    assert others[|vars|] == v && others[x] == vars[x];
    if Hits(mid, v, {d}) {
      var r: seq<nat>, b: nat :| b in {d} && Leads(mid, v, r, b);
      LeadsRef(mid, v, r, d);
      RouteLeads(mid, others, x, path, chain, 0, |chain| - 1);
      assert path[0..|chain| - 1] == path;
      RouteAt(mid, others, x, path, chain, 0);
      StoreCyclic(mid, after, vars, v, vars[x], path, r, d, i);
    } else {
      PutAcyclic(mid, d, i, v);
    }
  }

  /* -------------------------------------------------------- the same objects, elsewhere */

  lemma {:induction false} StaysSame(c1: seq<Cell>, c2: seq<Cell>, o1: seq<Value>, o2: seq<Value>, s: set<nat>, a: nat,
                                     t: Tree, setting: bool, dup: bool, boxed: bool, writes: bool)
    requires Closed(c1, s) && CalmFor(c1, o1, c2, o2, s) && a in s && Means(c1, Ref(a), t) && Means(c2, Ref(a), t)
    ensures Stays(c1, o1, a, t, setting, dup, boxed, writes) == Stays(c2, o2, a, t, setting, dup, boxed, writes)
    decreases t
  {
    hide Sole, CalmFor, Closed;
    assert c2[a].kids == c1[a].kids by { CalmAt(c1, c2, o1, o2, s, a, 0); }
    if Thru(t, setting) {
      KidIn(c1, s, a, t, 0);
      var w, k := c1[a].kids[0].a, t.kids[0].kind;
      CalmAt(c1, c2, o1, o2, s, a, w);
      var copied := StructLike(k) && (boxed || (writes && (dup || !Sole(c1, o1, w))));
      StaysSame(c1, c2, o1, o2, s, w, t.kids[0], setting, copied, false, writes);
    }
  }

  /** Objects that hold what they held, shared just when they were, stay just when they did. */
  lemma {:induction false} StaysFromSame(c1: seq<Cell>, c2: seq<Cell>, o1: seq<Value>, o2: seq<Value>, s: set<nat>,
                                         a: nat, t: Tree, dup: bool, boxed: bool, path: seq<nat>, target: Target)
    requires Closed(c1, s) && CalmFor(c1, o1, c2, o2, s) && a in s && Means(c1, Ref(a), t) && Means(c2, Ref(a), t)
    requires Reaches(t, path, target)
    ensures StaysFrom(c1, o1, a, t, dup, boxed, path, target) == StaysFrom(c2, o2, a, t, dup, boxed, path, target)
    decreases |path|
  {
    hide Sole, CalmFor, Closed, Look, Stays;
    var setting := Setting(path, target);
    LookSame(c1, c2, o1, o2, s, a, t, setting, dup, boxed, Clean);
    if path == [] {
      StaysSame(c1, c2, o1, o2, s, a, t, setting, dup, boxed, !target.Elem?);
    } else {
      var e, core := Core(c1, a, t, setting), CoreTree(t, setting);
      var u := core.kids[path[0]];
      Inside(c1, e, core);
      Inside(c2, e, core);
      ReachedNode(u, path[1..], target);
      KidIn(c1, s, e, core, path[0]);
      var b := c1[e].kids[path[0]].a;
      CalmAt(c1, c2, o1, o2, s, e, b);
      hide Means, Reaches, CoreTree, Core, DupAtCore;
      var copied := DupAtCore(t, setting, dup, boxed) || !Sole(c1, o1, b);
      StaysSame(c1, c2, o1, o2, s, a, t, setting, dup, boxed, copied && core.kind.Struct?);
      StaysFromSame(c1, c2, o1, o2, s, b, u, copied && !u.kind.Box?, copied && u.kind.Box?, path[1..], target);
    }
  }

  /** Where u is a copy of a, what it holds has two holders. */
  lemma {:induction false} StaysCopied(c1: seq<Cell>, c2: seq<Cell>, others: seq<Value>, s: set<nat>, a: nat, u: nat,
                                       t: Tree, setting: bool, writes: bool)
    requires Closed(c1, s) && Calm(c1, c2, others, s) && Means(c1, Ref(a), t) && Means(c2, Ref(u), t)
    requires c2[u].kids == c1[a].kids && forall k | 0 <= k < |c1[a].kids| && c1[a].kids[k].Ref? ::
                c1[a].kids[k].a in s && !Sole(c2, others, c1[a].kids[k].a)
    requires forall b | b in s :: Live(c1, b)
    ensures Stays(c1, others, a, t, setting, true, false, writes)
         == Stays(c2, others, u, t, setting, false, false, writes)
  {
    hide Sole, CalmFor, Closed;
    if Thru(t, setting) {
      var w, k := c1[a].kids[0].a, t.kids[0].kind;
      Inside(c1, a, t);
      Inside(c2, u, t);
      StaysSame(c1, c2, others, others, s, w, t.kids[0], setting, StructLike(k) && writes, false, writes);
    }
  }

  lemma {:induction false} StaysFromCopied(c1: seq<Cell>, c2: seq<Cell>, others: seq<Value>, s: set<nat>, a: nat,
                                           u: nat, t: Tree, path: seq<nat>, target: Target)
    requires Closed(c1, s) && Calm(c1, c2, others, s) && Means(c1, Ref(a), t) && Means(c2, Ref(u), t)
    requires c2[u].kids == c1[a].kids && forall k | 0 <= k < |c1[a].kids| && c1[a].kids[k].Ref? ::
                c1[a].kids[k].a in s && !Sole(c2, others, c1[a].kids[k].a)
    requires forall b | b in s :: Live(c1, b)
    requires Reaches(t, path, target)
    ensures StaysFrom(c1, others, a, t, true, false, path, target)
         == StaysFrom(c2, others, u, t, false, false, path, target)
  {
    hide Sole, CalmFor, Closed, Look, Stays;
    var setting := Setting(path, target);
    LookCopied(c1, c2, others, s, a, u, t, setting, Clean);
    if path == [] {
      StaysCopied(c1, c2, others, s, a, u, t, setting, !target.Elem?);
    } else {
      var e1, e2, core := Core(c1, a, t, setting), Core(c2, u, t, setting), CoreTree(t, setting);
      var v := core.kids[path[0]];
      Inside(c1, e1, core);
      Inside(c2, e2, core);
      ReachedNode(v, path[1..], target);
      if Thru(t, setting) {
        KidIn(c1, s, e1, core, path[0]);
        CalmAt(c1, c2, others, others, s, e1, c1[e1].kids[path[0]].a);
      }
      var b := c1[e1].kids[path[0]].a;
      assert c2[e2].kids == c1[e1].kids;
      DupOnlyHere(t, setting);
      hide Means, Reaches, CoreTree, Core, DupAtCore;
      var copied := DupAtCore(t, setting, true, false) || !Sole(c1, others, b);
      StaysCopied(c1, c2, others, s, a, u, t, setting, copied && core.kind.Struct?);
      StaysFromSame(c1, c2, others, others, s, b, v, copied && !v.kind.Box?, copied && v.kind.Box?, path[1..], target);
    }
  }

  /** A Box that is not looked into. */
  lemma BoxStays(c1: seq<Cell>, c2: seq<Cell>, others: seq<Value>, a: nat, u: nat, t: Tree, path: seq<nat>,
                 target: Target)
    requires Means(c1, Ref(a), t) && Means(c2, Ref(u), t) && t.kind.Box? && Reaches(t, path, target)
    requires !Thru(t, Setting(path, target))
    ensures StaysFrom(c1, others, a, t, false, true, path, target)
         == StaysFrom(c2, others, u, t, false, false, path, target)
  {}

  /** A level inside which the first object is copied with the Box it is in, or not at all. */
  lemma StaysThru(cells: seq<Cell>, others: seq<Value>, a: nat, t: Tree, dup: bool, boxed: bool, path: seq<nat>,
                  target: Target)
    requires Means(cells, Ref(a), t) && Reaches(t, path, target) && Thru(t, Setting(path, target))
    requires cells[a].kids[0].Ref? && Means(cells, cells[a].kids[0], t.kids[0]) && Reaches(t.kids[0], path, target)
    requires boxed || !StructLike(t.kids[0].kind) || (!dup && Sole(cells, others, cells[a].kids[0].a))
    ensures var w, copied := cells[a].kids[0].a, boxed && StructLike(t.kids[0].kind);
      StaysFrom(cells, others, a, t, dup, boxed, path, target)
      == (if copied then {} else {w}) + StaysFrom(cells, others, w, t.kids[0], copied, false, path, target)
  {
    hide Sole, Means;
  }

  /** What vl_cow_unique returns stays where what it was given does, but for a new object in a Box. */
  lemma UniquedStays(c1: seq<Cell>, c2: seq<Cell>, others: seq<Value>, held: seq<Value>, rank: seq<nat>, v: nat, u: nat,
                     t: Tree, path: seq<nat>, target: Target)
    requires Uniqued(c1, c2, v, u) && Grown(c1, c2) && Ranked(c1, rank) && Balanced(c1, others + held)
    requires Means(c1, Ref(v), t) && Means(c2, Ref(u), t) && Reaches(t, path, target)
    ensures Joined(StaysFrom(c1, others, v, t, !t.kind.Box?, t.kind.Box?, path, target),
                   StaysFrom(c2, others, u, t, false, false, path, target), |c1|)
  {
    hide StaysFrom, Balanced, Ranked, Reaches;
    Inside(c1, v, t);
    Inside(c2, u, t);
    if !t.kind.Box? {
      CopyStays(c1, c2, others, rank, v, u, t, path, target);
    } else if !Thru(t, Setting(path, target)) {
      BoxStays(c1, c2, others, v, u, t, path, target);
    } else if Holds(c1, v) {
      BoxedStays(c1, c2, others, held, rank, v, u, t, path, target);
    } else {
      OtherBoxStays(c1, c2, others, rank, v, u, t, path, target);
    }
  }

  lemma CopyStays(c1: seq<Cell>, c2: seq<Cell>, others: seq<Value>, rank: seq<nat>, v: nat, u: nat, t: Tree,
                  path: seq<nat>, target: Target)
    requires PlainCopy(c1, c2, v, u) && Uniqued(c1, c2, v, u) && Source(c1, v) == v && Ranked(c1, rank)
    requires Means(c1, Ref(v), t) && Means(c2, Ref(u), t) && Reaches(t, path, target)
    ensures StaysFrom(c1, others, v, t, true, false, path, target)
         == StaysFrom(c2, others, u, t, false, false, path, target)
  {
    var s := SetBelow(c1, rank, rank[v]);
    BelowClosed(c1, rank, rank[v]);
    UniquedCalm(c1, c2, others, v, u, s);
    CopiedKids(c1, c2, others, v, u, rank);
    hide Calm, Closed, StaysFrom, Reaches, Means;
    StaysFromCopied(c1, c2, others, s, v, u, t, path, target);
  }

  /** A Box over something that is not copied with it. */
  lemma OtherBoxStays(c1: seq<Cell>, c2: seq<Cell>, others: seq<Value>, rank: seq<nat>, v: nat, u: nat, t: Tree,
                      path: seq<nat>, target: Target)
    requires PlainCopy(c1, c2, v, u) && Uniqued(c1, c2, v, u) && Source(c1, v) == v && Ranked(c1, rank)
    requires Means(c1, Ref(v), t) && Means(c2, Ref(u), t) && Reaches(t, path, target)
    requires Thru(t, Setting(path, target)) && !StructLike(t.kids[0].kind)
    ensures StaysFrom(c1, others, v, t, false, true, path, target)
         == StaysFrom(c2, others, u, t, false, false, path, target)
  {
    var s := SetBelow(c1, rank, rank[v]);
    BelowClosed(c1, rank, rank[v]);
    UniquedCalm(c1, c2, others, v, u, s);
    BelowKids(c1, rank, v, rank[v]);
    Inside(c1, v, t);
    Inside(c2, u, t);
    hide Calm, Closed, StaysFrom, Reaches, Uniqued;
    ThruReaches(t, path, target);
    StaysThru(c1, others, v, t, false, true, path, target);
    StaysThru(c2, others, u, t, false, false, path, target);
    StaysFromSame(c1, c2, others, others, s, c1[v].kids[0].a, t.kids[0], false, false, path, target);
  }

  lemma BoxedStays(c1: seq<Cell>, c2: seq<Cell>, others: seq<Value>, held: seq<Value>, rank: seq<nat>, v: nat, u: nat,
                   t: Tree, path: seq<nat>, target: Target)
    requires Uniqued(c1, c2, v, u) && Grown(c1, c2) && Ranked(c1, rank) && Balanced(c1, others + held)
    requires Means(c1, Ref(v), t) && Means(c2, Ref(u), t) && Reaches(t, path, target) && t.kind.Box? && Holds(c1, v)
    requires Thru(t, Setting(path, target))
    ensures Joined(StaysFrom(c1, others, v, t, false, true, path, target),
                   StaysFrom(c2, others, u, t, false, false, path, target), |c1|)
  {
    Inside(c1, v, t);
    Inside(c2, u, t);
    var w, c := c1[v].kids[0].a, |c1|;
    var s := SetBelow(c1, rank, rank[w]);
    BelowClosed(c1, rank, rank[w]);
    UniquedCalm(c1, c2, others, v, u, s);
    CopiedKids(c1, c2, others, w, c, rank);
    assert c2[u].kids[0] == Ref(c);
    ThruReaches(t, path, target);
    assert Sole(c2, others, c) by {
      hide InDeg, Occ;
      NewUnheld(c1, others, held, w);
      BoxInDeg(c1, c2, v, w, u, c);
    }
    hide Calm, Closed, Balanced, StaysFrom, Sole, Uniqued;
    Inside(c1, w, t.kids[0]);
    StaysThru(c1, others, v, t, false, true, path, target);
    StaysThru(c2, others, u, t, false, false, path, target);
    StaysFromCopied(c1, c2, others, s, w, c, t.kids[0], path, target);
  }
}
