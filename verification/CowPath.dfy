/** The objects a write goes through, how they are made the path's own one after the other, and
 *  what that leaves as it was. */
module CowPath {
  import opened HeapModel
  import opened ValueMeaning
  import opened ObjectHeap
  import opened CopyOnWrite

  /* -------------------------------------------------------- twins may be exchanged */

  function Size(t: Tree): (n: nat)
    ensures t.Node? ==> forall k | 0 <= k < |t.kids| :: Size(t.kids[k]) < n
  {
    match t case Leaf(_) => 0 case Node(_, kids) => 1 + SizeAll(kids)
  }

  function SizeAll(ts: seq<Tree>): (n: nat)
    ensures forall k | 0 <= k < |ts| :: Size(ts[k]) <= n
  {
    if ts == [] then 0
    else
      var rest := ts[1..];
      assert forall k | 0 < k < |ts| :: ts[k] == rest[k - 1];
      Size(ts[0]) + SizeAll(rest)
  }

  ghost function Meaning(cells: seq<Cell>, v: Value): Tree
    requires exists t :: Means(cells, v, t)
  {
    var t :| Means(cells, v, t); t
  }

  ghost function SizeRank(cells: seq<Cell>, a: nat): nat {
    if exists t :: Means(cells, Ref(a), t) then Size(Meaning(cells, Ref(a))) else 0
  }

  lemma SizeRankIs(cells: seq<Cell>, a: nat, t: Tree)
    requires Means(cells, Ref(a), t)
    ensures SizeRank(cells, a) == Size(t)
  {
    MeansOne(cells, Ref(a), Meaning(cells, Ref(a)), t);
  }

  /** Objects can be ranked by the size of what they stand for. */
  lemma RankedBySize(cells: seq<Cell>) returns (rank: seq<nat>)
    requires Acyclic(cells)
    ensures Ranked(cells, rank) && forall a: nat, t | a < |rank| && Means(cells, Ref(a), t) :: rank[a] == Size(t)
  {
    var r0 :| Ranked(cells, r0);
    rank := seq(|cells|, a requires 0 <= a < |cells| => SizeRank(cells, a));
    forall a: nat, k: nat | a < |cells| && cells[a].Obj? && k < |cells[a].kids| && cells[a].kids[k].Ref?
      ensures Live(cells, cells[a].kids[k].a) && rank[cells[a].kids[k].a] < rank[a]
    {
      var t := HasMeaning(cells, r0, Ref(a));
      SizeRankIs(cells, a, t);
      SizeRankIs(cells, cells[a].kids[k].a, t.kids[k]);
    }
    forall a: nat, t | a < |rank| && Means(cells, Ref(a), t) ensures rank[a] == Size(t) { SizeRankIs(cells, a, t); }
  }

  /** A twin put in an object's place changes no meaning and closes no cycle. */
  lemma TwinPut(cells: seq<Cell>, p: nat, i: nat, w: nat, c: nat)
    requires Acyclic(cells) && Live(cells, p) && i < |cells[p].kids| && cells[p].kids[i] == Ref(w) && Live(cells, c)
    requires Twins(cells, Ref(w), Ref(c))
    ensures Kept(cells, Put(cells, p, i, Ref(c))) && Acyclic(Put(cells, p, i, Ref(c)))
  {
    var rank := RankedBySize(cells);
    var t := HasMeaning(cells, rank, cells[p].kids[i]);
    assert Means(cells, Ref(c), t);
    assert rank[w] == Size(t) && rank[c] == Size(t);
    hide Twins, Means;
    assert rank[cells[p].kids[i].a] < rank[p];
    SwapKept(cells, rank, p, i, Ref(c));
  }

  /** They stay twins. */
  lemma TwinsKept(before: seq<Cell>, after: seq<Cell>, v: Value, u: Value)
    requires Acyclic(before) && Kept(before, after) && Twins(before, v, u)
    requires v.Ref? && u.Ref? && Live(before, v.a) && Live(after, v.a) && Live(after, u.a)
    ensures Twins(after, v, u)
  {
    var rank :| Ranked(before, rank);
    var t0 := HasMeaning(before, rank, v);
    KeptValue(before, after, v, t0);
    KeptValue(before, after, u, t0);
    forall t | Means(after, v, t) ensures Means(after, u, t) { MeansOne(after, v, t, t0); }
  }

  /* -------------------------------------------------------- routes */

  lemma RouteAt(cells: seq<Cell>, others: seq<Value>, x: nat, path: seq<nat>, chain: seq<nat>, k: nat)
    requires Route(cells, others, x, path, chain) && k < |chain|
    ensures Live(cells, chain[k])
    ensures k + 1 < |chain| ==> path[k] < |cells[chain[k]].kids| && cells[chain[k]].kids[path[k]] == Ref(chain[k + 1])
  {
    if k + 1 < |chain| { assert Linked(cells, path, chain, k + 1); }
  }

  lemma {:induction false} RouteRank(cells: seq<Cell>, others: seq<Value>, x: nat, path: seq<nat>, chain: seq<nat>,
                                     rank: seq<nat>, j: nat, k: nat)
    requires Route(cells, others, x, path, chain) && Ranked(cells, rank) && j <= k < |chain|
    ensures chain[j] < |cells| && chain[k] < |cells| && rank[chain[j]] >= rank[chain[k]]
    ensures j < k ==> rank[chain[j]] > rank[chain[k]]
    decreases k - j
  {
    RouteAt(cells, others, x, path, chain, j);
    if j < k {
      RouteRank(cells, others, x, path, chain, rank, j + 1, k);
      assert cells[chain[j]].kids[path[j]].a == chain[j + 1];
    }
  }

  lemma RouteGrown(before: seq<Cell>, after: seq<Cell>, others: seq<Value>, x: nat, path: seq<nat>, chain: seq<nat>)
    requires Route(before, others, x, path, chain) && Grown(before, after)
    ensures Route(after, others, x, path, chain)
  {
    forall k | 0 <= k < |chain| ensures Live(after, chain[k]) && Linked(after, path, chain, k) {
      assert Live(before, chain[k]) && Linked(before, path, chain, k);
    }
  }

  lemma RouteLonger(cells: seq<Cell>, others: seq<Value>, x: nat, path: seq<nat>, chain: seq<nat>, i: nat, w: nat)
    requires Route(cells, others, x, path, chain) && |path| == |chain| - 1
    requires Live(cells, chain[|chain| - 1]) && i < |cells[chain[|chain| - 1]].kids|
    requires cells[chain[|chain| - 1]].kids[i] == Ref(w) && Live(cells, w)
    ensures Route(cells, others, x, path + [i], chain + [w])
  {
    forall k | 0 <= k < |chain + [w]| ensures Live(cells, (chain + [w])[k])
    && Linked(cells, path + [i], chain + [w], k) {
      if k < |chain| { assert Live(cells, chain[k]) && Linked(cells, path, chain, k); }
    }
  }

  lemma AloneLonger(cells: seq<Cell>, others: seq<Value>, chain: seq<nat>, w: nat)
    ensures Alone(cells, others, chain + [w]) <==> Alone(cells, others, chain) && Sole(cells, others, w)
  {
    forall k | 0 <= k < |chain| ensures (chain + [w])[k] == chain[k] {}
    assert (chain + [w])[|chain|] == w;
  }

  lemma AloneSame(before: seq<Cell>, after: seq<Cell>, others: seq<Value>, chain: seq<nat>)
    requires forall k | 0 <= k < |chain| :: InDeg(after, chain[k]) == InDeg(before, chain[k])
    ensures Alone(after, others, chain) <==> Alone(before, others, chain)
  {
    hide InDeg, Occ;
  }

  /** An object of a route has a holder. */
  lemma RouteHeld(cells: seq<Cell>, others: seq<Value>, x: nat, path: seq<nat>, chain: seq<nat>, k: nat)
    requires Route(cells, others, x, path, chain) && k < |chain|
    ensures InDeg(cells, chain[k]) + Occ(others, chain[k]) > 0
  {
    hide Occ, InDeg;
    assert Linked(cells, path, chain, k);
    if k == 0 {
      OccSome(others, chain[0]);
    } else {
      var b := chain[k - 1];
      assert cells[b].kids[path[k - 1]] == Ref(chain[k]);
      OccSome(cells[b].kids, chain[k]);
      InDegHolds(cells, b, chain[k]);
    }
  }

  lemma PutInDeg(cells: seq<Cell>, p: nat, i: nat, w: nat, c: nat, a: nat)
    requires Live(cells, p) && i < |cells[p].kids| && cells[p].kids[i] == Ref(w)
    ensures InDeg(Put(cells, p, i, Ref(c)), a)
         == InDeg(cells, a) - (if a == w then 1 else 0) + (if a == c then 1 else 0)
  {
    hide Occ, InDeg;
    var after := Put(cells, p, i, Ref(c));
    InDegUpdate(cells, p, after[p], a);
    OccUpdate(cells[p].kids, i, Ref(c), a);
    OccOne(Ref(c), a);
    OccOne(Ref(w), a);
  }

  /** A new object c goes into slot i of the last one, in place of w: the route goes on to c, which
   *  is its own, and the rest is as alone as it was. */
  lemma PutRoute(cells: seq<Cell>, others: seq<Value>, x: nat, path: seq<nat>, chain: seq<nat>, i: nat, w: nat, c: nat)
    requires Acyclic(cells) && Route(cells, others, x, path, chain) && |path| == |chain| - 1
    requires Live(cells, chain[|chain| - 1]) && i < |cells[chain[|chain| - 1]].kids|
    requires cells[chain[|chain| - 1]].kids[i] == Ref(w) && Live(cells, c) && InDeg(cells, c) + Occ(others, c) == 0
    ensures var after := Put(cells, chain[|chain| - 1], i, Ref(c));
      Route(after, others, x, path + [i], chain + [c]) && Sole(after, others, c)
      && (Alone(after, others, chain + [c]) <==> Alone(cells, others, chain))
  {
    var rank :| Ranked(cells, rank);
    var p := chain[|chain| - 1];
    var after := Put(cells, p, i, Ref(c));
    assert cells[p].kids[i].a == w && rank[w] < rank[p];
    forall k | 0 <= k < |chain|
      ensures InDeg(after, chain[k]) == InDeg(cells, chain[k]) && (k < |chain| - 1 ==> chain[k] != p)
    {
      RouteRank(cells, others, x, path, chain, rank, k, |chain| - 1);
      RouteHeld(cells, others, x, path, chain, k);
      PutInDeg(cells, p, i, w, c, chain[k]);
    }
    PutInDeg(cells, p, i, w, c, c);
    hide Occ, InDeg;
    AloneSame(cells, after, others, chain);
    AloneLonger(after, others, chain, c);
    PutLinks(cells, others, x, path, chain, i, c);
  }

  lemma PutLinks(cells: seq<Cell>, others: seq<Value>, x: nat, path: seq<nat>, chain: seq<nat>, i: nat, c: nat)
    requires Route(cells, others, x, path, chain) && |path| == |chain| - 1 && Live(cells, c)
    requires Live(cells, chain[|chain| - 1]) && i < |cells[chain[|chain| - 1]].kids|
    requires forall k | 0 <= k < |chain| - 1 :: chain[k] != chain[|chain| - 1]
    ensures Route(Put(cells, chain[|chain| - 1], i, Ref(c)), others, x, path + [i], chain + [c])
  {
    var after := Put(cells, chain[|chain| - 1], i, Ref(c));
    forall k | 0 <= k < |chain + [c]| ensures Live(after, (chain + [c])[k])
    && Linked(after, path + [i], chain + [c], k) {
      if k < |chain| { assert Live(cells, chain[k]) && Linked(cells, path, chain, k); }
    }
  }

  /* -------------------------------------------------------- copies and counts */

  lemma AppendInDeg(before: seq<Cell>, after: seq<Cell>, a: nat)
    requires Grown(before, after) && |after| == |before| + 1
    ensures InDeg(after, a) == InDeg(before, a) + Occ(Kids(after[|before|]), a)
  {
    hide InDeg, Occ;
    var mid := after[..|before|];
    assert after == mid + [after[|before|]];
    InDegAppend(mid, after[|before|], a);
    GrownInDeg(before, mid, a);
  }

  lemma PlainInDeg(before: seq<Cell>, after: seq<Cell>, v: nat, u: nat, a: nat)
    requires PlainCopy(before, after, v, u)
    ensures InDeg(after, a) == InDeg(before, a) + Occ(before[v].kids, a)
  {
    AppendInDeg(before, after, a);
  }

  lemma BoxInDeg(before: seq<Cell>, after: seq<Cell>, v: nat, w: nat, u: nat, a: nat)
    requires BoxCopy(before, after, v, w, u)
    ensures InDeg(after, a) == InDeg(before, a) + Occ(before[w].kids, a) + if a == |before| then 1 else 0
  {
    hide InDeg, Occ;
    var mid := after[..u];
    AppendInDeg(before, mid, a);
    AppendInDeg(mid, after, a);
    OccOne(Ref(|before|), a);
  }

  /** What vl_cow_unique retains again: what v holds, or what the object in the Box holds. */
  function Source(cells: seq<Cell>, v: nat): nat
    requires Live(cells, v)
  {
    if cells[v].kind.Box? && Holds(cells, v) then cells[v].kids[0].a else v
  }

  lemma UniquedInDeg(before: seq<Cell>, after: seq<Cell>, v: nat, u: nat, a: nat)
    requires Uniqued(before, after, v, u) && a < |before|
    ensures Live(before, Source(before, v))
    ensures InDeg(after, a) == InDeg(before, a) + Occ(before[Source(before, v)].kids, a)
  {
    hide InDeg, Occ;
    if before[v].kind.Box? && Holds(before, v) {
      BoxInDeg(before, after, v, before[v].kids[0].a, u, a);
    } else {
      PlainInDeg(before, after, v, u, a);
    }
  }

  lemma SourceRank(cells: seq<Cell>, rank: seq<nat>, v: nat)
    requires Ranked(cells, rank) && Live(cells, v)
    ensures Source(cells, v) < |cells| && rank[Source(cells, v)] <= rank[v]
  {}

  lemma NotAbove(cells: seq<Cell>, rank: seq<nat>, v: nat, a: nat)
    requires Ranked(cells, rank) && Live(cells, v) && a < |cells| && rank[a] >= rank[v]
    ensures Occ(cells[v].kids, a) == 0
  {
    OccSome(cells[v].kids, a);
    if Ref(a) in cells[v].kids { HolderRank(cells, rank, v, a); }
  }

  /** Copying something below the end of a route leaves the route as alone as it was. */
  lemma UniquedRoute(before: seq<Cell>, after: seq<Cell>, others: seq<Value>, x: nat, path: seq<nat>, chain: seq<nat>,
                     v: nat, u: nat, rank: seq<nat>)
    requires Route(before, others, x, path, chain) && Uniqued(before, after, v, u) && Grown(before, after)
    requires Ranked(before, rank) && forall k | 0 <= k < |chain| :: chain[k] < |before| && rank[chain[k]] >= rank[v]
    ensures Route(after, others, x, path, chain)
    ensures Alone(after, others, chain) <==> Alone(before, others, chain)
  {
    RouteGrown(before, after, others, x, path, chain);
    SourceRank(before, rank, v);
    hide Occ, InDeg, Uniqued;
    forall k | 0 <= k < |chain| ensures InDeg(after, chain[k]) == InDeg(before, chain[k]) {
      UniquedInDeg(before, after, v, u, chain[k]);
      NotAbove(before, rank, Source(before, v), chain[k]);
    }
    AloneSame(before, after, others, chain);
  }

  /* -------------------------------------------------------- what stays below */

  /** s holds everything its objects refer to. */
  ghost predicate Closed(cells: seq<Cell>, s: set<nat>) {
    forall a, k | a in s && Live(cells, a) && 0 <= k < |cells[a].kids|
    && cells[a].kids[k].Ref? :: cells[a].kids[k].a in s
  }

  /** The objects of s hold what they held, and what they hold is shared just when it was. */
  ghost predicate Calm(before: seq<Cell>, after: seq<Cell>, others: seq<Value>, s: set<nat>) {
    CalmFor(before, others, after, others, s)
  }

  ghost predicate CalmFor(before: seq<Cell>, o1: seq<Value>, after: seq<Cell>, o2: seq<Value>, s: set<nat>) {
    |before| <= |after|
    && (forall a | a in s && Live(before, a) ::
          Live(after, a) && after[a].kind == before[a].kind && after[a].kids == before[a].kids)
    && forall a, b: nat | a in s && Live(before, a) && Ref(b) in before[a].kids ::
         Sole(after, o2, b) <==> Sole(before, o1, b)
  }

  lemma CalmThrough(x: seq<Cell>, y: seq<Cell>, z: seq<Cell>, others: seq<Value>, s: set<nat>)
    requires Calm(x, y, others, s) && Calm(y, z, others, s)
    ensures Calm(x, z, others, s)
  {
    hide Sole;
  }

  lemma CalmSame(before: seq<Cell>, after: seq<Cell>, others: seq<Value>, s: set<nat>)
    requires Grown(before, after) && |after| == |before|
    ensures Calm(before, after, others, s)
  {
    hide InDeg, Occ;
    forall a: nat ensures InDeg(after, a) == InDeg(before, a) { GrownInDeg(before, after, a); }
  }

  lemma ClosedStays(before: seq<Cell>, after: seq<Cell>, others: seq<Value>, s: set<nat>)
    requires Closed(before, s) && Calm(before, after, others, s) && forall a | a in s :: Live(before, a)
    ensures Closed(after, s)
  {
    hide Sole;
  }

  lemma TwoHolders(cells: seq<Cell>, a: nat, b: nat, x: nat)
    requires a < |cells| && b < |cells| && a != b && Ref(x) in Kids(cells[a]) && Ref(x) in Kids(cells[b])
    ensures InDeg(cells, x) >= 2
  {
    hide InDeg, Occ;
    OccSome(Kids(cells[a]), x);
    OccSome(Kids(cells[b]), x);
    if a < b { InDegTwo(cells, a, b, x); } else { InDegTwo(cells, b, a, x); }
  }

  /** A copy of something outside s. */
  lemma UniquedCalm(before: seq<Cell>, after: seq<Cell>, others: seq<Value>, v: nat, u: nat, s: set<nat>)
    requires Uniqued(before, after, v, u) && Grown(before, after) && Closed(before, s) && Source(before, v) !in s
    requires forall a | a in s :: Live(before, a)
    ensures Calm(before, after, others, s)
  {
    var d := Source(before, v);
    hide InDeg, Occ, Uniqued;
    forall a, b: nat | a in s && Live(before, a) && Ref(b) in before[a].kids
      ensures Sole(after, others, b) <==> Sole(before, others, b)
    {
      var k :| 0 <= k < |before[a].kids| && before[a].kids[k] == Ref(b);
      assert before[a].kids[k].a in s;
      UniquedInDeg(before, after, v, u, b);
      OccSome(before[d].kids, b);
      if Ref(b) in before[d].kids { TwoHolders(before, a, d, b); }
    }
  }

  /** A new object put in place of one outside s, in an object outside s. */
  lemma PutCalm(cells: seq<Cell>, others: seq<Value>, p: nat, i: nat, w: nat, c: nat, s: set<nat>)
    requires Live(cells, p) && i < |cells[p].kids| && cells[p].kids[i] == Ref(w) && Closed(cells, s)
    requires p !in s && w !in s && InDeg(cells, c) == 0
    ensures Calm(cells, Put(cells, p, i, Ref(c)), others, s)
  {
    hide InDeg, Occ;
    var after := Put(cells, p, i, Ref(c));
    forall a, b: nat | a in s && Live(cells, a) && Ref(b) in cells[a].kids
      ensures Sole(after, others, b) <==> Sole(cells, others, b)
    {
      var k :| 0 <= k < |cells[a].kids| && cells[a].kids[k] == Ref(b);
      assert cells[a].kids[k].a in s;
      PutInDeg(cells, p, i, w, c, b);
      InDegHolds(cells, a, b);
      OccSome(cells[a].kids, b);
    }
  }
}
