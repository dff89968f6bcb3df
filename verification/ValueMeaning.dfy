/** The value a reference stands for, whoever else shares its parts; and what a write means. */
module ValueMeaning {
  import opened HeapModel

  /** A value with no sharing left in it. */
  datatype Tree = Leaf(n: int) | Node(kind: Kind, kids: seq<Tree>)

  ghost predicate Means(cells: seq<Cell>, v: Value, t: Tree)
    decreases t
  {
    match t
    case Leaf(n) => v == Plain(n)
    case Node(kind, kids) =>
      v.Ref? && Live(cells, v.a) && cells[v.a].kind == kind && |cells[v.a].kids| == |kids|
      && forall k | 0 <= k < |kids| :: Means(cells, cells[v.a].kids[k], kids[k])
  }

  /** t with the part at `path` replaced by u. */
  ghost function Update(t: Tree, path: seq<nat>, u: Tree): Tree
    decreases |path|
  {
    if path == [] then u
    else if t.Node? && path[0] < |t.kids| then Node(t.kind, t.kids[path[0] := Update(t.kids[path[0]], path[1..], u)])
    else t
  }

  lemma {:induction false} MeansOne(cells: seq<Cell>, v: Value, t: Tree, u: Tree)
    requires Means(cells, v, t) && Means(cells, v, u)
    ensures t == u
    decreases t
  {
    if t.Node? {
      forall k | 0 <= k < |t.kids| ensures t.kids[k] == u.kids[k] {
        MeansOne(cells, cells[v.a].kids[k], t.kids[k], u.kids[k]);
      }
      assert t.kids == u.kids;
    }
  }

  /** In an acyclic graph every value that does not dangle means something. */
  lemma {:induction false} HasMeaning(cells: seq<Cell>, rank: seq<nat>, v: Value) returns (t: Tree)
    requires Ranked(cells, rank) && (v.Ref? ==> Live(cells, v.a))
    ensures Means(cells, v, t)
    decreases if v.Ref? then 2 * rank[v.a] + 2 else 0
  {
    if v.Plain? {
      t := Leaf(v.n);
    } else {
      var ts := AllMean(cells, rank, v.a, |cells[v.a].kids|);
      t := Node(cells[v.a].kind, ts);
    }
  }

  lemma {:induction false} AllMean(cells: seq<Cell>, rank: seq<nat>, a: nat, n: nat) returns (ts: seq<Tree>)
    requires Ranked(cells, rank) && Live(cells, a) && n <= |cells[a].kids|
    ensures |ts| == n && forall k | 0 <= k < n :: Means(cells, cells[a].kids[k], ts[k])
    decreases 2 * rank[a] + 1, n
  {
    if n == 0 {
      ts := [];
    } else {
      var front := AllMean(cells, rank, a, n - 1);
      var last := HasMeaning(cells, rank, cells[a].kids[n - 1]);
      ts := front + [last];
    }
  }

  /** Objects outside s are the same before and after, and refer to nothing in s. */
  predicate SameApart(before: seq<Cell>, after: seq<Cell>, s: set<nat>) {
    forall a | 0 <= a < |before| && before[a].Obj? && a !in s ::
      Live(after, a) && after[a].kind == before[a].kind && after[a].kids == before[a].kids
      && forall k | 0 <= k < |before[a].kids| && before[a].kids[k].Ref? :: before[a].kids[k].a !in s
  }

  lemma {:induction false} MeansApart(before: seq<Cell>, after: seq<Cell>, s: set<nat>, v: Value, t: Tree)
    requires SameApart(before, after, s) && Means(before, v, t) && (v.Ref? ==> v.a !in s)
    ensures Means(after, v, t)
    decreases t
  {
    if t.Node? {
      forall k | 0 <= k < |t.kids| ensures Means(after, after[v.a].kids[k], t.kids[k]) {
        MeansApart(before, after, s, before[v.a].kids[k], t.kids[k]);
      }
    }
  }

  /** Every object there both before and after means what it meant. */
  ghost predicate Kept(before: seq<Cell>, after: seq<Cell>) {
    |before| <= |after|
    && forall a: nat | a < |before| && Live(after, a) ::
         Live(before, a) && forall t | Means(before, Ref(a), t) :: Means(after, Ref(a), t)
  }

  lemma KeptThrough(x: seq<Cell>, y: seq<Cell>, z: seq<Cell>)
    requires Kept(x, y) && Kept(y, z)
    ensures Kept(x, z)
  {
    hide Means;
  }

  lemma KeptSelf(x: seq<Cell>)
    ensures Kept(x, x)
  {
    hide Means;
  }

  lemma KeptValue(before: seq<Cell>, after: seq<Cell>, v: Value, t: Tree)
    requires Kept(before, after) && Means(before, v, t) && (v.Ref? ==> Live(after, v.a))
    ensures Means(after, v, t)
  {
    if v.Ref? { assert Live(before, v.a); }
  }

  /** Freeing what nothing refers to changes no meaning. */
  lemma PrunedKept(before: seq<Cell>, after: seq<Cell>, held: seq<Value>)
    requires Pruned(before, after) && Balanced(after, held)
    ensures Kept(before, after)
  {
    hide Balanced;
    var s := set a | 0 <= a < |before| && !Live(after, a);
    forall a | 0 <= a < |before| && before[a].Obj? && a !in s
      ensures forall k | 0 <= k < |before[a].kids| && before[a].kids[k].Ref? :: before[a].kids[k].a !in s
    {
      forall k | 0 <= k < |before[a].kids| && before[a].kids[k].Ref? ensures before[a].kids[k].a !in s {
        Referred(after, held, a, before[a].kids[k].a);
      }
    }
    assert SameApart(before, after, s);
    forall a: nat, t | a < |before| && Live(after, a) && Means(before, Ref(a), t) ensures Means(after, Ref(a), t) {
      MeansApart(before, after, s, Ref(a), t);
    }
  }

  /** The objects of `before` are all still there as they were; only counts and new objects differ. */
  predicate Grown(before: seq<Cell>, after: seq<Cell>) {
    |before| <= |after|
    && forall a | 0 <= a < |before| ::
         after[a].Obj? == before[a].Obj?
         && (before[a].Obj? ==> after[a].kind == before[a].kind && after[a].kids == before[a].kids)
  }

  lemma GrownKept(before: seq<Cell>, after: seq<Cell>)
    requires Grown(before, after)
    ensures Kept(before, after)
  {
    forall a: nat, t | a < |before| && Live(after, a) && Means(before, Ref(a), t) ensures Means(after, Ref(a), t) {
      MeansApart(before, after, {}, Ref(a), t);
    }
  }

  lemma GrownThrough(x: seq<Cell>, y: seq<Cell>, z: seq<Cell>)
    requires Grown(x, y) && Grown(y, z)
    ensures Grown(x, z)
  {}

  /** One slot now refers to something of the same meaning. */
  function Put(cells: seq<Cell>, p: nat, i: nat, v: Value): seq<Cell>
    requires Live(cells, p) && i < |cells[p].kids|
  {
    cells[p := cells[p].(kids := cells[p].kids[i := v])]
  }

  ghost predicate Twins(cells: seq<Cell>, v: Value, w: Value) {
    forall t | Means(cells, v, t) :: Means(cells, w, t)
  }

  lemma {:induction false} MeansSwapped(cells: seq<Cell>, rank: seq<nat>, p: nat, i: nat, w: Value, v: Value, t: Tree)
    requires Ranked(cells, rank) && Live(cells, p) && i < |cells[p].kids|
    requires Twins(cells, cells[p].kids[i], w) && (w.Ref? ==> Live(cells, w.a) && rank[w.a] < rank[p])
    requires Means(cells, v, t) && (v.Ref? ==> Live(cells, v.a))
    ensures Means(Put(cells, p, i, w), v, t)
    decreases if v.Ref? then rank[v.a] + 1 else 0
  {
    if v.Ref? {
      var after := Put(cells, p, i, w);
      forall k | 0 <= k < |t.kids| ensures Means(after, after[v.a].kids[k], t.kids[k]) {
        if v.a == p && k == i {
          assert Means(cells, cells[p].kids[i], t.kids[k]);
          MeansSwapped(cells, rank, p, i, w, w, t.kids[k]);
        } else {
          MeansSwapped(cells, rank, p, i, w, cells[v.a].kids[k], t.kids[k]);
        }
      }
    }
  }

  lemma SwapKept(cells: seq<Cell>, rank: seq<nat>, p: nat, i: nat, w: Value)
    requires Ranked(cells, rank) && Live(cells, p) && i < |cells[p].kids|
    requires Twins(cells, cells[p].kids[i], w) && (w.Ref? ==> Live(cells, w.a) && rank[w.a] < rank[p])
    ensures Kept(cells, Put(cells, p, i, w)) && Ranked(Put(cells, p, i, w), rank)
  {
    hide Twins, Means;
    forall a: nat, t | a < |cells| && Live(cells, a) && Means(cells, Ref(a), t)
      ensures Means(Put(cells, p, i, w), Ref(a), t)
    {
      MeansSwapped(cells, rank, p, i, w, Ref(a), t);
    }
    SwapRanked(cells, rank, p, i, w);
  }

  lemma SwapRanked(cells: seq<Cell>, rank: seq<nat>, p: nat, i: nat, w: Value)
    requires Ranked(cells, rank) && Live(cells, p) && i < |cells[p].kids|
    requires w.Ref? ==> Live(cells, w.a) && rank[w.a] < rank[p]
    ensures Ranked(Put(cells, p, i, w), rank)
  {
    var after := Put(cells, p, i, w);
    forall a, k | 0 <= a < |after| && after[a].Obj? && 0 <= k < |after[a].kids| && after[a].kids[k].Ref?
      ensures Live(after, after[a].kids[k].a) && rank[after[a].kids[k].a] < rank[a]
    {
      if !(a == p && k == i) { assert after[a].kids[k] == cells[a].kids[k]; }
    }
  }

  /* -------------------------------------------------------- a write in place */

  /** Nothing but one holder reaches a: one slot of the objects, or one of the given values. */
  predicate Sole(cells: seq<Cell>, others: seq<Value>, a: nat) {
    InDeg(cells, a) + Occ(others, a) <= 1
  }

  /** The objects met from the value at index x of others, through the slots of path. */
  predicate Route(cells: seq<Cell>, others: seq<Value>, x: nat, path: seq<nat>, chain: seq<nat>) {
    |chain| > 0 && |path| >= |chain| - 1 && x < |others| && others[x] == Ref(chain[0])
    && forall k | 0 <= k < |chain| :: Live(cells, chain[k]) && Linked(cells, path, chain, k)
  }

  /** Each of them has that one holder. */
  predicate Alone(cells: seq<Cell>, others: seq<Value>, chain: seq<nat>) {
    forall k | 0 <= k < |chain| :: Sole(cells, others, chain[k])
  }

  predicate Own(cells: seq<Cell>, others: seq<Value>, x: nat, path: seq<nat>, chain: seq<nat>) {
    Route(cells, others, x, path, chain) && Alone(cells, others, chain)
  }

  /** The k-th object of the chain, but for the first, is where its predecessor's slot points. */
  predicate Linked(cells: seq<Cell>, path: seq<nat>, chain: seq<nat>, k: nat)
    requires k < |chain| && |path| >= |chain| - 1
  {
    k > 0 ==>
      Live(cells, chain[k - 1]) && path[k - 1] < |cells[chain[k - 1]].kids|
      && cells[chain[k - 1]].kids[path[k - 1]] == Ref(chain[k])
  }

  lemma {:induction false} OccTwo(vs: seq<Value>, i: nat, j: nat, a: nat)
    requires i < j < |vs| && vs[i] == Ref(a) && vs[j] == Ref(a)
    ensures Occ(vs, a) >= 2
  {
    if i == 0 {
      assert vs[1..][j - 1] == Ref(a);
      OccSome(vs[1..], a);
    } else {
      OccTwo(vs[1..], i - 1, j - 1, a);
    }
  }

  lemma OccAt(vs: seq<Value>, i: nat, a: nat)
    requires i < |vs| && vs[i] == Ref(a)
    ensures Occ(vs, a) >= 1
    ensures Occ(vs, a) == 1 ==> forall j | 0 <= j < |vs| && j != i :: vs[j] != Ref(a)
  {
    hide Occ;
    forall j | 0 <= j < |vs| && j != i ensures vs[j] == Ref(a) ==> Occ(vs, a) >= 2 {
      if vs[j] == Ref(a) {
        if i < j { OccTwo(vs, i, j, a); } else { OccTwo(vs, j, i, a); }
      }
    }
    OccSome(vs, a);
  }

  lemma {:induction false} InDegTwo(cells: seq<Cell>, b: nat, c: nat, a: nat)
    requires b < c < |cells|
    ensures InDeg(cells, a) >= Occ(Kids(cells[b]), a) + Occ(Kids(cells[c]), a)
  {
    if b == 0 {
      InDegHolds(cells[1..], c - 1, a);
    } else {
      InDegTwo(cells[1..], b - 1, c - 1, a);
    }
  }

  /** The only way to an object of the chain is the chain. */
  lemma OnlyWay(cells: seq<Cell>, others: seq<Value>, x: nat, path: seq<nat>, chain: seq<nat>, k: nat, b: nat, j: nat)
    requires Own(cells, others, x, path, chain) && k < |chain|
    requires b < |cells| && j < |Kids(cells[b])| && Kids(cells[b])[j] == Ref(chain[k])
    ensures k > 0 && b == chain[k - 1] && j == path[k - 1]
  {
    hide InDeg, Occ;
    assert Linked(cells, path, chain, k);
    var a := chain[k];
    InDegHolds(cells, b, a);
    OccAt(Kids(cells[b]), j, a);
    if k == 0 {
      OccAt(others, x, a);
    } else {
      var c := chain[k - 1];
      OccAt(cells[c].kids, path[k - 1], a);
      if b < c { InDegTwo(cells, b, c, a); } else if c < b { InDegTwo(cells, c, b, a); }
    }
  }

  /** No other given value is an object of the chain. */
  lemma OnlyRoot(cells: seq<Cell>, others: seq<Value>, x: nat, path: seq<nat>, chain: seq<nat>, k: nat, y: nat)
    requires Own(cells, others, x, path, chain) && k < |chain| && y < |others| && y != x
    ensures others[y] != Ref(chain[k])
  {
    hide InDeg, Occ;
    assert Linked(cells, path, chain, k);
    if k > 0 {
      OccAt(cells[chain[k - 1]].kids, path[k - 1], chain[k]);
      InDegHolds(cells, chain[k - 1], chain[k]);
      OccSome(others, chain[k]);
    } else {
      OccAt(others, x, chain[k]);
    }
  }

  function Members(chain: seq<nat>): set<nat> {
    set k | 0 <= k < |chain| :: chain[k]
  }

  lemma ChainLive(cells: seq<Cell>, others: seq<Value>, x: nat, path: seq<nat>, chain: seq<nat>, k: nat)
    requires Own(cells, others, x, path, chain) && k < |chain|
    ensures Live(cells, chain[k]) && chain[k] in Members(chain)
    ensures k + 1 < |chain| ==> path[k] < |cells[chain[k]].kids| && cells[chain[k]].kids[path[k]] == Ref(chain[k + 1])
  {
    if k + 1 < |chain| { assert Linked(cells, path, chain, k + 1); }
  }

  /** A write into the last object of the chain is not seen by anything off the chain. */
  lemma WriteApart(cells: seq<Cell>, others: seq<Value>, x: nat, path: seq<nat>, chain: seq<nat>, i: nat, v: Value)
    requires Own(cells, others, x, path, chain) && i < |cells[chain[|chain| - 1]].kids|
    ensures SameApart(cells, Put(cells, chain[|chain| - 1], i, v), Members(chain))
  {
    var s := Members(chain);
    ChainLive(cells, others, x, path, chain, |chain| - 1);
    hide Own, Sole;
    forall a | 0 <= a < |cells| && cells[a].Obj? && a !in s
      ensures forall k | 0 <= k < |cells[a].kids| && cells[a].kids[k].Ref? :: cells[a].kids[k].a !in s
    {
      forall j | 0 <= j < |cells[a].kids| && cells[a].kids[j].Ref? ensures cells[a].kids[j].a !in s {
        if cells[a].kids[j].a in s {
          var k :| 0 <= k < |chain| && chain[k] == cells[a].kids[j].a;
          OnlyWay(cells, others, x, path, chain, k, a, j);
        }
      }
    }
  }

  /** The objects of the chain are all different. */
  lemma {:induction false} Distinct(cells: seq<Cell>, others: seq<Value>, x: nat, path: seq<nat>, chain: seq<nat>,
                                    j: nat, k: nat)
    requires Own(cells, others, x, path, chain) && j < k < |chain|
    ensures chain[j] != chain[k]
  {
    if chain[j] == chain[k] {
      ChainLive(cells, others, x, path, chain, k - 1);
      OnlyWay(cells, others, x, path, chain, j, chain[k - 1], path[k - 1]);
      Distinct(cells, others, x, path, chain, j - 1, k - 1);
    }
  }

  lemma OffChain(cells: seq<Cell>, others: seq<Value>, x: nat, path: seq<nat>, chain: seq<nat>, k: nat, j: nat)
    requires Own(cells, others, x, path, chain) && |path| == |chain| && k < |chain|
    requires chain[k] < |cells| && j < |Kids(cells[chain[k]])| && j != path[k] && Kids(cells[chain[k]])[j].Ref?
    ensures Kids(cells[chain[k]])[j].a !in Members(chain)
  {
    hide Own, Sole;
    if Kids(cells[chain[k]])[j].a in Members(chain) {
      var m :| 0 <= m < |chain| && chain[m] == Kids(cells[chain[k]])[j].a;
      OnlyWay(cells, others, x, path, chain, m, chain[k], j);
      if k < m - 1 { Distinct(cells, others, x, path, chain, k, m - 1); }
      if m - 1 < k { Distinct(cells, others, x, path, chain, m - 1, k); }
    }
  }

  /** The slots of a chain object that the write does not go through keep their meaning. */
  lemma OtherKid(cells: seq<Cell>, others: seq<Value>, x: nat, path: seq<nat>, chain: seq<nat>, v: Value, k: nat,
                 j: nat, t: Tree)
    requires Own(cells, others, x, path, chain) && |path| == |chain| && k < |chain|
    requires path[|path| - 1] < |Kids(cells[chain[|chain| - 1]])| && chain[k] < |cells|
    requires j < |Kids(cells[chain[k]])| && j != path[k] && Means(cells, Kids(cells[chain[k]])[j], t)
    ensures Means(Put(cells, chain[|chain| - 1], path[|path| - 1], v), Kids(cells[chain[k]])[j], t)
  {
    ChainLive(cells, others, x, path, chain, |chain| - 1);
    hide Own, Sole;
    var w := Kids(cells[chain[k]])[j];
    WriteApart(cells, others, x, path, chain, path[|path| - 1], v);
    if w.Ref? { OffChain(cells, others, x, path, chain, k, j); }
    MeansApart(cells, Put(cells, chain[|chain| - 1], path[|path| - 1], v), Members(chain), w, t);
  }

  lemma NodeOf(cells: seq<Cell>, after: seq<Cell>, c: nat, i: nat, w: Value, t: Tree, u: Tree)
    requires Means(cells, Ref(c), t) && Live(after, c) && i < |t.kids|
    requires after[c].kind == cells[c].kind && after[c].kids == cells[c].kids[i := w]
    requires Means(after, w, u)
    requires forall j | 0 <= j < |t.kids| && j != i :: Means(after, cells[c].kids[j], t.kids[j])
    ensures Means(after, Ref(c), Node(t.kind, t.kids[i := u]))
  {}

  lemma KidsMean(cells: seq<Cell>, c: nat, t: Tree)
    requires Means(cells, Ref(c), t)
    ensures Live(cells, c) && t.Node? && |t.kids| == |cells[c].kids|
    ensures forall j | 0 <= j < |t.kids| :: Means(cells, cells[c].kids[j], t.kids[j])
  {}

  lemma UpdateNone(t: Tree, u: Tree)
    ensures Update(t, [], u) == u
  {}

  lemma UpdateStep(t: Tree, path: seq<nat>, k: nat, u: Tree)
    requires k < |path| && t.Node? && path[k] < |t.kids|
    ensures Update(t, path[k..], u) == Node(t.kind, t.kids[path[k] := Update(t.kids[path[k]], path[k + 1..], u)])
  {
    assert path[k..][0] == path[k] && path[k..][1..] == path[k + 1..];
  }

  lemma WriteLast(cells: seq<Cell>, others: seq<Value>, x: nat, path: seq<nat>, chain: seq<nat>, v: Value, u: Tree,
                  t: Tree)
    requires Own(cells, others, x, path, chain) && |path| == |chain|
    requires var c := chain[|chain| - 1]; c < |cells| && path[|path| - 1] < |Kids(cells[c])| && Means(cells, Ref(c), t)
    requires Means(cells, v, u) && (v.Ref? ==> v.a !in Members(chain))
    ensures Means(Put(cells, chain[|chain| - 1], path[|path| - 1], v), Ref(chain[|chain| - 1]),
                  Update(t, path[|path| - 1..], u))
  {
    var k := |chain| - 1;
    var c, i := chain[k], path[k];
    KidsMean(cells, c, t);
    hide Own, Sole, Means, Update, InDeg, Occ, Members;
    var after := Put(cells, c, i, v);
    forall j | 0 <= j < |t.kids| && j != i ensures Means(after, cells[c].kids[j], t.kids[j]) {
      OtherKid(cells, others, x, path, chain, v, k, j, t.kids[j]);
    }
    WriteApart(cells, others, x, path, chain, i, v);
    MeansApart(cells, after, Members(chain), v, u);
    NodeOf(cells, after, c, i, v, t, u);
    UpdateStep(t, path, k, u);
    assert path[k + 1..] == [];
    UpdateNone(t.kids[i], u);
  }

  lemma WriteInner(cells: seq<Cell>, others: seq<Value>, x: nat, path: seq<nat>, chain: seq<nat>, v: Value, k: nat,
                   t: Tree, u: Tree)
    requires Own(cells, others, x, path, chain) && |path| == |chain| && k + 1 < |chain|
    requires chain[|chain| - 1] < |cells| && path[|path| - 1] < |Kids(cells[chain[|chain| - 1]])|
    requires Means(cells, Ref(chain[k]), t) && path[k] < |t.kids|
    requires Means(Put(cells, chain[|chain| - 1], path[|path| - 1], v), Ref(chain[k + 1]), u)
    ensures Means(Put(cells, chain[|chain| - 1], path[|path| - 1], v), Ref(chain[k]),
                  Node(t.kind, t.kids[path[k] := u]))
  {
    var c, i := chain[k], path[k];
    KidsMean(cells, c, t);
    ChainLive(cells, others, x, path, chain, k);
    Distinct(cells, others, x, path, chain, k, |chain| - 1);
    hide Own, Sole, Means, Update, InDeg, Occ, Members;
    var after := Put(cells, chain[|chain| - 1], path[|path| - 1], v);
    forall j | 0 <= j < |t.kids| && j != i ensures Means(after, cells[c].kids[j], t.kids[j]) {
      OtherKid(cells, others, x, path, chain, v, k, j, t.kids[j]);
    }
    assert cells[c].kids[i := Ref(chain[k + 1])] == cells[c].kids;
    NodeOf(cells, after, c, i, Ref(chain[k + 1]), t, u);
  }

  /** So the write is an update of the value the chain starts from. */
  lemma {:induction false} WriteAlong(cells: seq<Cell>, others: seq<Value>, x: nat, path: seq<nat>, chain: seq<nat>,
                                      v: Value, u: Tree, k: nat, t: Tree)
    requires Own(cells, others, x, path, chain) && |path| == |chain| && k < |chain|
    requires chain[|chain| - 1] < |cells| && path[|path| - 1] < |Kids(cells[chain[|chain| - 1]])|
    requires Means(cells, v, u) && (v.Ref? ==> v.a !in Members(chain)) && Means(cells, Ref(chain[k]), t)
    ensures Means(Put(cells, chain[|chain| - 1], path[|path| - 1], v), Ref(chain[k]), Update(t, path[k..], u))
    decreases |chain| - k
  {
    KidsMean(cells, chain[k], t);
    ChainLive(cells, others, x, path, chain, k);
    hide Own, Sole, Means, Update, InDeg, Occ, Members, Put;
    if k + 1 == |chain| {
      WriteLast(cells, others, x, path, chain, v, u, t);
    } else {
      WriteAlong(cells, others, x, path, chain, v, u, k + 1, t.kids[path[k]]);
      UpdateStep(t, path, k, u);
      WriteInner(cells, others, x, path, chain, v, k, t, Update(t.kids[path[k]], path[k + 1..], u));
    }
  }

  /** And it closes no cycle: the value written does not lead back to the chain. */
  lemma WriteAcyclic(cells: seq<Cell>, others: seq<Value>, x: nat, path: seq<nat>, chain: seq<nat>, i: nat, v: Value)
    requires Own(cells, others, x, path, chain) && chain[|chain| - 1] < |cells|
    requires i < |Kids(cells[chain[|chain| - 1]])|
    requires Acyclic(cells) && (v.Ref? ==> Live(cells, v.a) && v.a !in Members(chain))
    ensures Acyclic(Put(cells, chain[|chain| - 1], i, v))
  {
    var rank :| Ranked(cells, rank);
    var m := MaxRank(rank);
    var s := Members(chain);
    var last := chain[|chain| - 1];
    var after := Put(cells, last, i, v);
    var rank' := seq(|rank|, a requires 0 <= a < |rank| => if a in s then rank[a] + m + 1 else rank[a]);
    ChainLive(cells, others, x, path, chain, |chain| - 1);
    WriteApart(cells, others, x, path, chain, i, v);
    hide Own, Sole, Members;
    forall a, k | 0 <= a < |after| && after[a].Obj? && 0 <= k < |after[a].kids| && after[a].kids[k].Ref?
      ensures Live(after, after[a].kids[k].a) && rank'[after[a].kids[k].a] < rank'[a]
    {
      if !(a == last && k == i) { assert after[a].kids[k] == cells[a].kids[k]; }
    }
    assert Ranked(after, rank');
  }
}
