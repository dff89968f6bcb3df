/** Why the condition is exact: a store into an object that something else leads to as well is seen
 *  there, if it changes anything. */
module CowExact {
  import opened HeapModel
  import opened ValueMeaning
  import opened ObjectHeap
  import opened CopyOnWrite
  import opened CowPath

  /** The part of t at `path`. */
  function At(t: Tree, path: seq<nat>): Tree
    decreases |path|
  {
    if path == [] then t else if t.Node? && path[0] < |t.kids| then At(t.kids[path[0]], path[1..]) else t
  }

  /** The slots of `path`, from v, lead to object a. */
  predicate Leads(cells: seq<Cell>, v: Value, path: seq<nat>, a: nat)
    decreases |path|
  {
    if path == [] then v == Ref(a)
    else
      v.Ref? && Live(cells, v.a) && path[0] < |cells[v.a].kids|
      && Leads(cells, cells[v.a].kids[path[0]], path[1..], a)
  }

  /* -------------------------------------------------------- what leads where */

  lemma {:induction false} LeadsOn(cells: seq<Cell>, v: Value, path: seq<nat>, a: nat, more: seq<nat>, b: nat)
    requires Leads(cells, v, path, a) && Leads(cells, Ref(a), more, b)
    ensures Leads(cells, v, path + more, b)
    decreases |path|
  {
    if path == [] {
      assert path + more == more;
    } else {
      assert (path + more)[1..] == path[1..] + more;
      LeadsOn(cells, cells[v.a].kids[path[0]], path[1..], a, more, b);
    }
  }

  lemma LeadsOne(cells: seq<Cell>, a: nat, i: nat, b: nat)
    requires Live(cells, a) && i < |cells[a].kids| && cells[a].kids[i] == Ref(b)
    ensures Leads(cells, Ref(a), [i], b)
  {
    assert [i][1..] == [];
  }

  lemma {:induction false} LeadsDown(cells: seq<Cell>, rank: seq<nat>, v: Value, path: seq<nat>, a: nat)
    requires Ranked(cells, rank) && Leads(cells, v, path, a) && v.Ref? && Live(cells, v.a)
    ensures Live(cells, a) && rank[a] <= rank[v.a] && (path != [] ==> rank[a] < rank[v.a])
    decreases |path|
  {
    if path != [] {
      var w := cells[v.a].kids[path[0]];
      assert path[1..] == [] ==> w == Ref(a);
      assert w.Ref? by { LeadsRef(cells, w, path[1..], a); }
      assert Live(cells, cells[v.a].kids[path[0]].a) && rank[cells[v.a].kids[path[0]].a] < rank[v.a];
      LeadsDown(cells, rank, w, path[1..], a);
    }
  }

  lemma LeadsRef(cells: seq<Cell>, v: Value, path: seq<nat>, a: nat)
    requires Leads(cells, v, path, a)
    ensures v.Ref?
  {}

  /** A path leads to one object. */
  lemma {:induction false} LeadsToOne(cells: seq<Cell>, v: Value, path: seq<nat>, a: nat, b: nat)
    requires Leads(cells, v, path, a) && Leads(cells, v, path, b)
    ensures a == b
    decreases |path|
  {
    if path != [] { LeadsToOne(cells, cells[v.a].kids[path[0]], path[1..], a, b); }
  }

  lemma {:induction false} LeadsMeans(cells: seq<Cell>, v: Value, path: seq<nat>, a: nat, t: Tree)
    requires Leads(cells, v, path, a) && Means(cells, v, t)
    ensures Means(cells, Ref(a), At(t, path))
    decreases |path|
  {
    if path != [] { LeadsMeans(cells, cells[v.a].kids[path[0]], path[1..], a, t.kids[path[0]]); }
  }

  /** Every step of the path finds its slot. */
  predicate Finds(t: Tree, path: seq<nat>)
    decreases |path|
  {
    path == [] || (t.Node? && path[0] < |t.kids| && Finds(t.kids[path[0]], path[1..]))
  }

  lemma {:induction false} AtMore(t: Tree, path: seq<nat>, i: nat)
    requires Finds(t, path) && At(t, path).Node? && i < |At(t, path).kids|
    ensures At(t, path + [i]) == At(t, path).kids[i]
    decreases |path|
  {
    if path == [] {
      assert ([] + [i])[1..] == [];
    } else {
      assert (path + [i])[1..] == path[1..] + [i];
      AtMore(t.kids[path[0]], path[1..], i);
    }
  }

  lemma {:induction false} LeadsReached(cells: seq<Cell>, v: Value, path: seq<nat>, a: nat, t: Tree)
    requires Leads(cells, v, path, a) && Means(cells, v, t)
    ensures Finds(t, path)
    decreases |path|
  {
    if path != [] { LeadsReached(cells, cells[v.a].kids[path[0]], path[1..], a, t.kids[path[0]]); }
  }

  /** What is in slot i of an object led to. */
  lemma SlotMeans(cells: seq<Cell>, v: Value, path: seq<nat>, a: nat, i: nat, t: Tree)
    requires Leads(cells, v, path, a) && Means(cells, v, t) && Live(cells, a) && i < |cells[a].kids|
    ensures Means(cells, cells[a].kids[i], At(t, path + [i]))
    ensures Finds(t, path) && At(t, path).Node? && i < |At(t, path).kids|
  {
    LeadsMeans(cells, v, path, a, t);
    LeadsReached(cells, v, path, a, t);
    KidsMean(cells, a, At(t, path));
    AtMore(t, path, i);
  }

  /* -------------------------------------------------------- an update, read back */

  lemma {:induction false} UpdateHere(t: Tree, path: seq<nat>, u: Tree)
    requires path != [] && Finds(t, path[..|path| - 1]) && At(t, path[..|path| - 1]).Node?
    requires path[|path| - 1] < |At(t, path[..|path| - 1]).kids|
    ensures At(Update(t, path, u), path) == u
    decreases |path|
  {
    if |path| == 1 {
      assert path[1..] == [];
    } else {
      assert path[..|path| - 1][1..] == path[1..][..|path| - 2] && path[..|path| - 1][0] == path[0];
      UpdateHere(t.kids[path[0]], path[1..], u);
    }
  }

  /** Elsewhere, nothing changes: two paths to one object, neither of them the other. */
  lemma {:induction false} UpdateElsewhere(cells: seq<Cell>, rank: seq<nat>, v: Value, w: seq<nat>, r: seq<nat>, d: nat,
                                           i: nat, t: Tree, u: Tree)
    requires Ranked(cells, rank) && Leads(cells, v, w, d) && Leads(cells, v, r, d) && w != r && Means(cells, v, t)
    ensures At(Update(t, w + [i], u), r + [i]) == At(t, r + [i])
    decreases |w|
  {
    LeadsRef(cells, v, w, d);
    if w == [] || r == [] {
      LeadsDown(cells, rank, v, w, d);
      LeadsDown(cells, rank, v, r, d);
    } else {
      assert (w + [i])[1..] == w[1..] + [i] && (r + [i])[1..] == r[1..] + [i];
      if w[0] == r[0] {
        assert w[1..] != r[1..] by { assert w == [w[0]] + w[1..] && r == [r[0]] + r[1..]; }
        UpdateElsewhere(cells, rank, cells[v.a].kids[w[0]], w[1..], r[1..], d, i, t.kids[w[0]], u);
      }
    }
  }

  lemma {:induction false} AtSmaller(t: Tree, path: seq<nat>)
    requires Finds(t, path)
    ensures Size(At(t, path)) <= Size(t) && (path != [] ==> Size(At(t, path)) < Size(t))
    decreases |path|
  {
    if path != [] { AtSmaller(t.kids[path[0]], path[1..]); }
  }

  lemma {:induction false} ReachedMore(t: Tree, path: seq<nat>, i: nat)
    requires Finds(t, path) && At(t, path).Node? && i < |At(t, path).kids|
    ensures Finds(t, path + [i])
    decreases |path|
  {
    if path == [] {
      assert ([] + [i])[1..] == [];
    } else {
      assert (path + [i])[1..] == path[1..] + [i];
      ReachedMore(t.kids[path[0]], path[1..], i);
    }
  }

  /* -------------------------------------------------------- another way there */

  /** The object is reached from the values given, otherwise than by the route. */
  ghost predicate OtherWay(cells: seq<Cell>, others: seq<Value>, x: nat, path: seq<nat>, d: nat) {
    exists y: nat, r: seq<nat> :: Comes(cells, others, x, path, d, y, r)
  }

  predicate Comes(cells: seq<Cell>, others: seq<Value>, x: nat, path: seq<nat>, d: nat, y: nat, r: seq<nat>) {
    y < |others| && (y != x || r != path) && Leads(cells, others[y], r, d)
  }

  lemma {:induction false} RouteLeads(cells: seq<Cell>, others: seq<Value>, x: nat, path: seq<nat>, chain: seq<nat>,
                                      j: nat, k: nat)
    requires Route(cells, others, x, path, chain) && j <= k < |chain|
    ensures Leads(cells, Ref(chain[j]), path[j..k], chain[k])
    decreases k - j
  {
    if j < k {
      RouteAt(cells, others, x, path, chain, j);
      assert path[j..k][0] == path[j] && path[j..k][1..] == path[j + 1..k];
      RouteLeads(cells, others, x, path, chain, j + 1, k);
    } else {
      assert path[j..k] == [];
    }
  }

  /** Every object is led to from outside; the temporaries lead nowhere the route does not. */
  lemma {:induction false} LedTo(cells: seq<Cell>, others: seq<Value>, temps: seq<Value>, x: nat, path: seq<nat>,
                                 chain: seq<nat>, rank: seq<nat>, m: nat, b: nat) returns (y: nat, r: seq<nat>)
    requires Sound(cells, others + temps) && Ranked(cells, rank) && Route(cells, others, x, path, chain)
    requires Live(cells, b)
    requires forall k | 0 <= k < |temps| :: temps[k].Ref? && temps[k].a in chain
    requires |rank| == |cells| && forall a | 0 <= a < |rank| :: rank[a] <= m
    ensures y < |others| && Leads(cells, others[y], r, b)
    decreases m - rank[b]
  {
    hide InDeg, Occ, Ranked;
    HeldSomehow(cells, others, temps, b);
    if Ref(b) in others {
      var j :| 0 <= j < |others| && others[j] == Ref(b);
      y, r := j, [];
    } else if Ref(b) in temps {
      var k :| 0 <= k < |chain| && chain[k] == b;
      RouteLeads(cells, others, x, path, chain, 0, k);
      y, r := x, path[0..k];
    } else {
      var c := InDegSome(cells, b);
      HolderRank(cells, rank, c, b);
      var i :| 0 <= i < |Kids(cells[c])| && Kids(cells[c])[i] == Ref(b);
      var r0;
      y, r0 := LedTo(cells, others, temps, x, path, chain, rank, m, c);
      LeadsOne(cells, c, i, b);
      LeadsOn(cells, others[y], r0, c, [i], b);
      r := r0 + [i];
    }
  }

  lemma HeldSomehow(cells: seq<Cell>, others: seq<Value>, temps: seq<Value>, b: nat)
    requires Counted(cells, others + temps) && Live(cells, b)
    ensures Ref(b) in others || Ref(b) in temps || InDeg(cells, b) > 0
  {
    hide InDeg, Occ;
    OccAppend(others, temps, b);
    OccSome(others, b);
    OccSome(temps, b);
  }

  /** An object of the route that is not its holder's alone has another holder. */
  lemma {:induction false} OtherHolder(cells: seq<Cell>, a: nat, b: nat, i: nat) returns (c: nat, j: nat)
    requires InDeg(cells, a) >= 2 && b < |cells| && i < |Kids(cells[b])| && Kids(cells[b])[i] == Ref(a)
    ensures c < |cells| && j < |Kids(cells[c])| && Kids(cells[c])[j] == Ref(a) && (c != b || j != i)
  {
    if Occ(Kids(cells[b]), a) >= 2 {
      c := b;
      j := OtherSlot(Kids(cells[b]), a, i);
    } else {
      c := OtherCell(cells, a, b);
      j :| 0 <= j < |Kids(cells[c])| && Kids(cells[c])[j] == Ref(a);
    }
  }

  lemma {:induction false} OtherSlot(vs: seq<Value>, a: nat, i: nat) returns (j: nat)
    requires i < |vs| && Occ(vs, a) >= 2
    ensures j < |vs| && j != i && vs[j] == Ref(a)
  {
    if i == 0 {
      OccSome(vs[1..], a);
      var k :| 0 <= k < |vs[1..]| && vs[1..][k] == Ref(a);
      j := k + 1;
    } else if vs[0] == Ref(a) {
      j := 0;
    } else {
      var k := OtherSlot(vs[1..], a, i - 1);
      j := k + 1;
    }
  }

  lemma {:induction false} OtherCell(cells: seq<Cell>, a: nat, b: nat) returns (c: nat)
    requires b < |cells| && InDeg(cells, a) > Occ(Kids(cells[b]), a)
    ensures c < |cells| && c != b && Ref(a) in Kids(cells[c])
  {
    if b == 0 {
      var k := InDegSome(cells[1..], a);
      c := k + 1;
    } else {
      OccSome(Kids(cells[0]), a);
      if Ref(a) in Kids(cells[0]) {
        c := 0;
      } else {
        var k := OtherCell(cells[1..], a, b - 1);
        c := k + 1;
      }
    }
  }

  /** A way that comes to the k-th object from another slot is not the route. */
  lemma NotTheRoute(cells: seq<Cell>, others: seq<Value>, x: nat, path: seq<nat>, chain: seq<nat>, k: nat, c: nat,
                    j: nat, r0: seq<nat>)
    requires Route(cells, others, x, path, chain) && |path| == |chain| - 1 && k < |chain|
    requires Leads(cells, others[x], r0, c)
    requires k > 0 ==> c != chain[k - 1] || j != path[k - 1]
    ensures (r0 + [j]) + path[k..] != path
  {
    var r := (r0 + [j]) + path[k..];
    if |r| == |path| && k > 0 && r[..k - 1] == path[..k - 1] {
      RouteLeads(cells, others, x, path, chain, 0, k - 1);
      assert r[..k - 1] == r0 && path[0..k - 1] == path[..k - 1];
      LeadsToOne(cells, others[x], r0, c, chain[k - 1]);
      assert r[k - 1] == j;
    }
  }

  /** From a second holder of the k-th object on, along the route. */
  lemma FromHolder(cells: seq<Cell>, others: seq<Value>, temps: seq<Value>, x: nat, path: seq<nat>, chain: seq<nat>,
                   rank: seq<nat>, k: nat, c: nat, j: nat)
    requires Sound(cells, others + temps) && Ranked(cells, rank) && Route(cells, others, x, path, chain)
    requires |path| == |chain| - 1
    requires forall q | 0 <= q < |temps| :: temps[q].Ref? && temps[q].a in chain
    requires k < |chain| && c < |cells| && j < |Kids(cells[c])| && Kids(cells[c])[j] == Ref(chain[k])
    requires k > 0 ==> c != chain[k - 1] || j != path[k - 1]
    ensures OtherWay(cells, others, x, path, chain[|chain| - 1])
  {
    var m := MaxRank(rank);
    var y, r0 := LedTo(cells, others, temps, x, path, chain, rank, m, c);
    var n := |chain| - 1;
    RouteLeads(cells, others, x, path, chain, k, n);
    assert path[k..n] == path[k..];
    LeadsOne(cells, c, j, chain[k]);
    hide Leads, Counted, Acyclic, Ranked, Route;
    if y == x { NotTheRoute(cells, others, x, path, chain, k, c, j, r0); }
    LeadsOn(cells, others[y], r0, c, [j], chain[k]);
    LeadsOn(cells, others[y], r0 + [j], chain[k], path[k..], chain[n]);
    assert Comes(cells, others, x, path, chain[n], y, (r0 + [j]) + path[k..]);
  }

  lemma FromRoot(cells: seq<Cell>, others: seq<Value>, x: nat, path: seq<nat>, chain: seq<nat>, k: nat, y: nat)
    requires Route(cells, others, x, path, chain) && |path| == |chain| - 1 && k < |chain| && y < |others| && y != x
    requires others[y] == Ref(chain[k])
    ensures OtherWay(cells, others, x, path, chain[|chain| - 1])
  {
    RouteLeads(cells, others, x, path, chain, k, |chain| - 1);
    assert Comes(cells, others, x, path, chain[|chain| - 1], y, path[k..|chain| - 1]);
  }

  /** A route that is not alone has another way to its end. */
  lemma NotAlone(cells: seq<Cell>, others: seq<Value>, temps: seq<Value>, x: nat, path: seq<nat>, chain: seq<nat>)
    requires Sound(cells, others + temps) && Route(cells, others, x, path, chain) && |path| == |chain| - 1
    requires forall q | 0 <= q < |temps| :: temps[q].Ref? && temps[q].a in chain
    requires !Alone(cells, others, chain)
    ensures OtherWay(cells, others, x, path, chain[|chain| - 1])
  {
    var rank :| Ranked(cells, rank);
    var k: nat :| k < |chain| && !Sole(cells, others, chain[k]);
    var a := chain[k];
    OccSome(others, a);
    if k == 0 {
      if Occ(others, a) >= 2 {
        var y := OtherSlot(others, a, x);
        FromRoot(cells, others, x, path, chain, 0, y);
      } else {
        var c := InDegSome(cells, a);
        var j :| 0 <= j < |Kids(cells[c])| && Kids(cells[c])[j] == Ref(a);
        FromHolder(cells, others, temps, x, path, chain, rank, 0, c, j);
      }
    } else {
      RouteAt(cells, others, x, path, chain, k - 1);
      RouteRank(cells, others, x, path, chain, rank, 0, k);
      if Ref(a) in others {
        var y :| 0 <= y < |others| && others[y] == Ref(a);
        FromRoot(cells, others, x, path, chain, k, y);
      } else {
        var c, j := OtherHolder(cells, a, chain[k - 1], path[k - 1]);
        FromHolder(cells, others, temps, x, path, chain, rank, k, c, j);
      }
    }
  }

  /* -------------------------------------------------------- the write is seen */

  /** A store into d leaves the ways to d as they were. */
  lemma {:induction false} LeadsPut(cells: seq<Cell>, rank: seq<nat>, v: Value, path: seq<nat>, d: nat, i: nat,
                                    w: Value)
    requires Ranked(cells, rank) && Leads(cells, v, path, d) && Live(cells, d) && i < |cells[d].kids|
    requires v.Ref? && Live(cells, v.a)
    ensures Leads(Put(cells, d, i, w), v, path, d)
    decreases |path|
  {
    if path != [] {
      LeadsDown(cells, rank, v, path, d);
      var z := cells[v.a].kids[path[0]];
      LeadsRef(cells, z, path[1..], d);
      assert Live(cells, cells[v.a].kids[path[0]].a);
      LeadsPut(cells, rank, z, path[1..], d, i, w);
    }
  }

  /** Where objects were freed that nothing refers to, what is left means what it did. */
  lemma {:induction false} PrunedMeans(before: seq<Cell>, after: seq<Cell>, v: Value, t: Tree)
    requires Pruned(before, after) && Means(after, v, t)
    ensures Means(before, v, t)
    decreases t
  {
    if t.Node? {
      forall k | 0 <= k < |t.kids| ensures Means(before, before[v.a].kids[k], t.kids[k]) {
        PrunedMeans(before, after, after[v.a].kids[k], t.kids[k]);
      }
    }
  }

  /** If the store acted as an update of name x and left every other name alone, the value stored
   *  was there before. */
  lemma StoreSeen(mid: seq<Cell>, after: seq<Cell>, vars: seq<Value>, v: Value, temps: seq<Value>, x: nat,
                  path: seq<nat>, chain: seq<nat>, d: nat, i: nat, t: Tree, u: Tree)
    requires Sound(mid, (vars + [v]) + temps) && Route(mid, vars + [v], x, path, chain) && |path| == |chain| - 1
    requires forall q | 0 <= q < |temps| :: temps[q].Ref? && temps[q].a in chain
    requires x < |vars| && d == chain[|chain| - 1] && Live(mid, d) && i < |mid[d].kids|
    requires Means(mid, vars[x], t) && Means(mid, v, u) && Pruned(Put(mid, d, i, v), after)
    requires !Alone(mid, vars + [v], chain)
    requires Means(after, vars[x], Update(t, path + [i], u))
    requires forall y, s | 0 <= y < |vars| && y != x && Means(mid, vars[y], s) :: Means(after, vars[y], s)
    ensures At(t, path + [i]) == u
  {
    var others := vars + [v];
    NotAlone(mid, others, temps, x, path, chain);
    var y: nat, r :| Comes(mid, others, x, path, d, y, r);
    var rank :| Ranked(mid, rank);
    OthersLive(mid, others, temps);
    RouteLeads(mid, others, x, path, chain, 0, |chain| - 1);
    assert path[0..|chain| - 1] == path && others[x] == vars[x];
    LeadsRef(mid, others[y], r, d);
    hide Route, Alone, Counted;
    var put := Put(mid, d, i, v);
    SlotMeans(mid, vars[x], path, d, i, t);
    XReads(mid, put, after, rank, vars[x], path, d, i, v, t, u);
    if y == |vars| {
      VLeads(mid, put, rank, v, r, d, i, u);
    } else if y == x {
      PrunedMeans(put, after, vars[x], Update(t, path + [i], u));
      OtherReads(mid, put, rank, vars[x], r, d, i, v, Update(t, path + [i], u));
      UpdateElsewhere(mid, rank, vars[x], path, r, d, i, t, u);
      SlotMeans(mid, vars[x], r, d, i, t);
      MeansOne(put, v, At(t, r + [i]), u);
      MeansOne(mid, mid[d].kids[i], At(t, r + [i]), At(t, path + [i]));
    } else {
      var s := HasMeaning(mid, rank, vars[y]);
      assert others[y] == vars[y];
      PrunedMeans(put, after, vars[y], s);
      OtherReads(mid, put, rank, vars[y], r, d, i, v, s);
      SlotMeans(mid, vars[y], r, d, i, s);
      MeansOne(put, v, At(s, r + [i]), u);
      MeansOne(mid, mid[d].kids[i], At(s, r + [i]), At(t, path + [i]));
    }
  }

  lemma OthersLive(cells: seq<Cell>, others: seq<Value>, temps: seq<Value>)
    requires Counted(cells, others + temps)
    ensures forall y | 0 <= y < |others| && others[y].Ref? :: Live(cells, others[y].a)
  {
    forall y | 0 <= y < |others| && others[y].Ref? ensures Live(cells, others[y].a) {
      assert (others + temps)[y] == others[y];
      Held(cells, others + temps, others[y].a);
    }
  }

  /** Read through name x, the slot stands for u. */
  lemma XReads(mid: seq<Cell>, put: seq<Cell>, after: seq<Cell>, rank: seq<nat>, root: Value, path: seq<nat>, d: nat,
               i: nat, v: Value, t: Tree, u: Tree)
    requires Ranked(mid, rank) && Live(mid, d) && i < |mid[d].kids| && put == Put(mid, d, i, v) && Pruned(put, after)
    requires Leads(mid, root, path, d) && root.Ref? && Live(mid, root.a) && Means(mid, root, t)
    requires Means(after, root, Update(t, path + [i], u))
    ensures Means(put, v, u)
  {
    PrunedMeans(put, after, root, Update(t, path + [i], u));
    OtherReads(mid, put, rank, root, path, d, i, v, Update(t, path + [i], u));
    SlotMeans(mid, root, path, d, i, t);
    assert (path + [i])[..|path + [i]| - 1] == path;
    UpdateHere(t, path + [i], u);
  }

  /** Read along any way to d, it stands for what is there in that value. */
  lemma OtherReads(mid: seq<Cell>, put: seq<Cell>, rank: seq<nat>, root: Value, r: seq<nat>, d: nat, i: nat, v: Value,
                   s: Tree)
    requires Ranked(mid, rank) && Live(mid, d) && i < |mid[d].kids| && put == Put(mid, d, i, v)
    requires Leads(mid, root, r, d) && root.Ref? && Live(mid, root.a) && Means(put, root, s)
    ensures Means(put, v, At(s, r + [i]))
  {
    LeadsPut(mid, rank, root, r, d, i, v);
    SlotMeans(put, root, r, d, i, s);
  }

  /** The value stored does not lead to where it is stored: it would hold itself. */
  lemma VLeads(mid: seq<Cell>, put: seq<Cell>, rank: seq<nat>, v: Value, r: seq<nat>, d: nat, i: nat, u: Tree)
    requires Ranked(mid, rank) && Live(mid, d) && i < |mid[d].kids| && put == Put(mid, d, i, v)
    requires v.Ref? && Live(mid, v.a) && Means(put, v, u)
    ensures !Leads(mid, v, r, d)
  {
    if Leads(mid, v, r, d) {
      OtherReads(mid, put, rank, v, r, d, i, v, u);
      MeansOne(put, v, u, At(u, r + [i]));
      LeadsPut(mid, rank, v, r, d, i, v);
      SlotMeans(put, v, r, d, i, u);
      ReachedMore(u, r, i);
      AtSmaller(u, r + [i]);
    }
  }
}
