/** The levels of a write path and the write itself (runtime/src/types.c; UNIQ and its write-back,
 *  voilac/low/boxcow.voi and voilac/cg/instr.voi). */
module CowWrite {
  import opened HeapModel
  import opened ValueMeaning
  import opened ObjectHeap
  import opened CopyOnWrite
  import opened CowPath
  import opened CowCondition
  import opened CowExact
  import opened CowCycles

  /* -------------------------------------------------------- the objects looked through */

  ghost function Wrapped(cells: seq<Cell>, a: nat, t: Tree, setting: bool): (ws: seq<nat>)
    requires Means(cells, Ref(a), t)
    ensures |ws| == Depth(t, setting)
    ensures Core(cells, a, t, setting) == if ws == [] then a else ws[|ws| - 1]
    decreases t
  {
    if Thru(t, setting) then
      Inside(cells, a, t);
      [cells[a].kids[0].a] + Wrapped(cells, cells[a].kids[0].a, t.kids[0], setting)
    else []
  }

  lemma WrappedStep(cells: seq<Cell>, a: nat, t: Tree, setting: bool)
    requires Means(cells, Ref(a), t) && Thru(t, setting)
    ensures Live(cells, a) && |cells[a].kids| == 1 && cells[a].kids[0].Ref?
    ensures Means(cells, cells[a].kids[0], t.kids[0]) && Live(cells, cells[a].kids[0].a)
    ensures cells[cells[a].kids[0].a].kind == t.kids[0].kind && cells[a].kind == t.kind
    ensures Wrapped(cells, a, t, setting)
         == [cells[a].kids[0].a] + Wrapped(cells, cells[a].kids[0].a, t.kids[0], setting)
    ensures Core(cells, a, t, setting) == Core(cells, cells[a].kids[0].a, t.kids[0], setting)
    ensures Live(cells, Core(cells, a, t, setting))
  {}

  lemma {:induction false} WrappedRank(cells: seq<Cell>, rank: seq<nat>, a: nat, t: Tree, setting: bool)
    requires Means(cells, Ref(a), t) && Ranked(cells, rank)
    ensures a < |rank| && Core(cells, a, t, setting) < |rank| && rank[Core(cells, a, t, setting)] <= rank[a]
    ensures var ws := Wrapped(cells, a, t, setting);
      forall k | 0 <= k < |ws| :: Live(cells, ws[k]) && rank[Core(cells, a, t, setting)] <= rank[ws[k]] < rank[a]
    decreases t
  {
    if Thru(t, setting) {
      WrappedStep(cells, a, t, setting);
      var w := cells[a].kids[0].a;
      assert rank[cells[a].kids[0].a] < rank[a];
      WrappedRank(cells, rank, w, t.kids[0], setting);
    }
  }

  lemma WrappedRankAt(cells: seq<Cell>, rank: seq<nat>, a: nat, t: Tree, setting: bool, k: nat)
    requires Means(cells, Ref(a), t) && Ranked(cells, rank) && k < |Wrapped(cells, a, t, setting)|
    ensures a < |rank| && Core(cells, a, t, setting) < |rank| && Live(cells, Wrapped(cells, a, t, setting)[k])
    ensures rank[Core(cells, a, t, setting)] <= rank[Wrapped(cells, a, t, setting)[k]] < rank[a]
  {
    WrappedRank(cells, rank, a, t, setting);
  }

  lemma {:induction false} NeverClean(cells: seq<Cell>, others: seq<Value>, a: nat, t: Tree, setting: bool, sc: Scan)
    requires Means(cells, Ref(a), t) && !sc.Clean?
    ensures !Look(cells, others, a, t, setting, false, false, sc).Clean?
    decreases t
  {
    if Thru(t, setting) {
      WrappedStep(cells, a, t, setting);
      var w := cells[a].kids[0].a;
      NeverClean(cells, others, w, t.kids[0], setting, Next(sc, !Sole(cells, others, w), t.kids[0].kind));
    }
  }

  lemma FirstSlotsStep(n: nat)
    ensures FirstSlots(n + 1) == [0] + FirstSlots(n)
  {}

  lemma NothingWrapped(cells: seq<Cell>, others: seq<Value>, a: nat, t: Tree, setting: bool)
    requires Means(cells, Ref(a), t) && !Thru(t, setting)
    ensures Wrapped(cells, a, t, setting) == [] && Look(cells, others, a, t, setting, false, false, Clean) == Clean
  {}

  /** Reading through makes the route longer; it is alone as long as the look inside is clean. */
  lemma {:induction false} RouteDown(cells: seq<Cell>, others: seq<Value>, x: nat, path: seq<nat>, chain: seq<nat>,
                                     t: Tree, setting: bool)
    requires Route(cells, others, x, path, chain) && |path| == |chain| - 1 && Means(cells, Ref(chain[|chain| - 1]), t)
    ensures var ws := Wrapped(cells, chain[|chain| - 1], t, setting);
      Route(cells, others, x, path + FirstSlots(|ws|), chain + ws)
      && var a := chain[|chain| - 1];
      (Alone(cells, others, chain + ws) <==>
         Alone(cells, others, chain) && Look(cells, others, a, t, setting, false, false, Clean).Clean?)
    decreases t
  {
    hide Route, Alone, Sole, Means, Look, Wrapped, Next, FirstSlots;
    var a := chain[|chain| - 1];
    if Thru(t, setting) {
      WrappedStep(cells, a, t, setting);
      var w := cells[a].kids[0].a;
      LookStep(cells, others, a, t, setting, w);
      NextIs(t.kids[0].kind);
      RouteLonger(cells, others, x, path, chain, 0, w);
      AloneLonger(cells, others, chain, w);
      RouteDown(cells, others, x, path + [0], chain + [w], t.kids[0], setting);
      var ws := Wrapped(cells, w, t.kids[0], setting);
      FirstSlotsStep(|ws|);
      assert path + ([0] + FirstSlots(|ws|)) == (path + [0]) + FirstSlots(|ws|)
      && chain + ([w] + ws) == (chain + [w]) + ws;
      if !Sole(cells, others, w) {
        NeverClean(cells, others, w, t.kids[0], setting, Next(Clean, true, t.kids[0].kind));
      }
    } else {
      NothingWrapped(cells, others, a, t, setting);
      NoFirstSlots();
      assert path + [] == path && chain + [] == chain;
    }
  }

  lemma NoFirstSlots()
    ensures FirstSlots(0) == []
  {}

  /** The objects looked through are as they were, and so is the look. */
  lemma {:induction false} LookShift(c1: seq<Cell>, c2: seq<Cell>, others: seq<Value>, a: nat, t: Tree, setting: bool,
                                     sc: Scan)
    requires Means(c1, Ref(a), t) && Means(c2, Ref(a), t) && Grown(c1, c2)
    requires forall w | w in Wrapped(c1, a, t, setting) :: Sole(c2, others, w) <==> Sole(c1, others, w)
    ensures Look(c1, others, a, t, setting, false, false, sc) == Look(c2, others, a, t, setting, false, false, sc)
    ensures Wrapped(c1, a, t, setting) == Wrapped(c2, a, t, setting)
    decreases t
  {
    if Thru(t, setting) {
      WrappedStep(c1, a, t, setting);
      WrappedStep(c2, a, t, setting);
      var w := c1[a].kids[0].a;
      hide Sole;
      assert w in Wrapped(c1, a, t, setting);
      LookShift(c1, c2, others, w, t.kids[0], setting, Next(sc, !Sole(c1, others, w), t.kids[0].kind));
    }
  }

  /** Objects other than p hold what they held. */
  predicate OnlyAt(c1: seq<Cell>, c2: seq<Cell>, p: nat) {
    |c1| <= |c2|
    && forall b: nat | b < |c1| && b != p && c1[b].Obj? ::
         Live(c2, b) && c2[b].kind == c1[b].kind && c2[b].kids == c1[b].kids
  }

  lemma {:induction false} WrappedMoved(c1: seq<Cell>, c2: seq<Cell>, p: nat, w: nat, c: nat, t: Tree, setting: bool)
    requires OnlyAt(c1, c2, p) && Means(c1, Ref(w), t) && Means(c2, Ref(c), t) && c2[c].kids == c1[w].kids
    requires p !in Wrapped(c1, w, t, setting)
    ensures Wrapped(c2, c, t, setting) == Wrapped(c1, w, t, setting)
    ensures c2[Core(c2, c, t, setting)].kids == c1[Core(c1, w, t, setting)].kids
    decreases t
  {
    if Thru(t, setting) {
      WrappedStep(c1, w, t, setting);
      WrappedStep(c2, c, t, setting);
      var d := c1[w].kids[0].a;
      assert d in Wrapped(c1, w, t, setting);
      WrappedMoved(c1, c2, p, d, d, t.kids[0], setting);
    }
  }

  /* -------------------------------------------------------- own_inner */

  /** What an inner step of a write leaves: meanings, the objects of s, the holders of `keep`, and
   *  objects nothing refers to. */
  ghost predicate Gently(before: seq<Cell>, after: seq<Cell>, others: seq<Value>, s: set<nat>, keep: nat) {
    && Kept(before, after) && Calm(before, after, others, s) && InDeg(after, keep) >= InDeg(before, keep)
    && forall b: nat | b < |before| && InDeg(before, b) == 0 :: InDeg(after, b) == 0
  }

  /** A copy of w was made, and took one holder's w from it. */
  ghost predicate Recounted(before: seq<Cell>, after: seq<Cell>, w: nat)
    requires Live(before, w)
  {
    forall b: nat | b < |before| ::
      InDeg(after, b) == InDeg(before, b) + Occ(before[w].kids, b) - if b == w then 1 else 0
  }

  lemma GentlySelf(cells: seq<Cell>, others: seq<Value>, s: set<nat>, keep: nat)
    ensures Gently(cells, cells, others, s, keep)
  {
    hide Sole, Means;
    KeptSelf(cells);
  }

  lemma GentlyThrough(a: seq<Cell>, b: seq<Cell>, c: seq<Cell>, others: seq<Value>, s: set<nat>, keep: nat)
    requires Gently(a, b, others, s, keep) && Gently(b, c, others, s, keep)
    ensures Gently(a, c, others, s, keep)
  {
    assert |a| <= |b|;
    KeptThrough(a, b, c);
    CalmThrough(a, b, c, others, s);
    hide Sole, Means, Kept, Calm;
  }

  lemma HeldCount(cells: seq<Cell>, others: seq<Value>, extra: seq<Value>, a: nat)
    requires Counted(cells, others + extra) && Live(cells, a)
    ensures cells[a].rc == InDeg(cells, a) + Occ(others, a) + Occ(extra, a)
  {
    hide InDeg, Occ;
    OccAppend(others, extra, a);
  }

  lemma SoleFor(cells: seq<Cell>, others: seq<Value>, extra: seq<Value>, a: nat)
    requires Counted(cells, others + extra) && Live(cells, a) && Occ(extra, a) == 0
    ensures Sole(cells, others, a) <==> cells[a].rc <= 1
  {
    HeldCount(cells, others, extra, a);
  }

  lemma FreshUnheld(cells: seq<Cell>, held: seq<Value>, others: seq<Value>, extra: seq<Value>, c: nat)
    requires Counted(cells, held + [Ref(c)]) && Live(cells, c) && cells[c].rc == 1 && held == others + extra
    ensures InDeg(cells, c) == 0 && Occ(others, c) == 0
  {
    hide InDeg, Occ;
    HeldCount(cells, held, [Ref(c)], c);
    OccOne(Ref(c), c);
    OccAppend(others, extra, c);
  }

  /** A copy of w, in hand, takes the place of w in slot i of the route's last object. */
  lemma Replaced(c0: seq<Cell>, c1: seq<Cell>, others: seq<Value>, extra: seq<Value>, x: nat, path: seq<nat>,
                 chain: seq<nat>, i: nat, w: nat, c: nat, s: set<nat>, keep: nat)
    requires Sound(c0, others + extra) && Sound(c1, (others + extra) + [Ref(c)]) && PlainCopy(c0, c1, w, c)
    requires Grown(c0, c1)
    requires Kept(c0, c1) && Uniqued(c0, c1, w, c) && Source(c0, w) == w
    requires Route(c0, others, x, path, chain) && |path| == |chain| - 1 && Live(c0, chain[|chain| - 1])
    requires i < |c0[chain[|chain| - 1]].kids| && c0[chain[|chain| - 1]].kids[i] == Ref(w)
    requires Closed(c0, s) && chain[|chain| - 1] !in s && w !in s && w != keep && forall b | b in s :: Live(c0, b)
    requires keep < |c0|
    ensures Live(c1, chain[|chain| - 1]) && i < |c1[chain[|chain| - 1]].kids|
    ensures c1[chain[|chain| - 1]].kids[i] == Ref(w)
    ensures var c2 := Put(c1, chain[|chain| - 1], i, Ref(c));
      Acyclic(c2) && Gently(c0, c2, others, s, keep) && OnlyAt(c0, c2, chain[|chain| - 1])
      && Live(c0, w) && Recounted(c0, c2, w)
      && Route(c2, others, x, path + [i], chain + [c])
      && (Alone(c2, others, chain + [c]) <==> Alone(c0, others, chain))
  {
    hide *;
    var p := chain[|chain| - 1];
    SlotSame(c0, c1, p);
    var rank := SomeRank(c0, others + extra);
    BelowRoute(c0, others, x, path, chain, rank, i, w);
    UniquedRoute(c0, c1, others, x, path, chain, w, c, rank);
    UniquedCalm(c0, c1, others, w, c, s);
    FreshHere(c0, c1, others, extra, w, c);
    PlainTwins(c0, c1, w, c);
    SoundParts(c1, (others + extra) + [Ref(c)]);
    TwinPut(c1, p, i, w, c);
    ClosedStays(c0, c1, others, s);
    PutCalm(c1, others, p, i, w, c, s);
    PutRoute(c1, others, x, path, chain, i, w, c);
    var c2 := Put(c1, p, i, Ref(c));
    KeptThrough(c0, c1, c2);
    CalmThrough(c0, c1, c2, others, s);
    forall b: nat | b < |c0| ensures InDeg(c2, b) == InDeg(c0, b) + Occ(c0[w].kids, b) - (if b == w then 1 else 0) {
      PlainInDeg(c0, c1, w, c, b);
      PutInDeg(c1, p, i, w, c, b);
    }
    RecountedIs(c0, c2, w);
    forall b: nat | b < |c0| && InDeg(c0, b) == 0 ensures Occ(c0[w].kids, b) == 0 { CountedKids(c0, w, b); }
    GentlyFrom(c0, c2, others, s, keep, w);
    OnlyPut(c0, c1, p, i, c);
  }

  lemma RecountedIs(before: seq<Cell>, after: seq<Cell>, w: nat)
    requires Live(before, w)
    requires forall b: nat | b < |before| ::
               InDeg(after, b) == InDeg(before, b) + Occ(before[w].kids, b) - (if b == w then 1 else 0)
    ensures Recounted(before, after, w)
  {
    hide InDeg, Occ;
  }

  lemma SlotSame(c0: seq<Cell>, c1: seq<Cell>, p: nat)
    requires Grown(c0, c1) && Live(c0, p)
    ensures Live(c1, p) && c1[p].kids == c0[p].kids && c1[p].kind == c0[p].kind
  {}

  lemma SomeRank(cells: seq<Cell>, held: seq<Value>) returns (rank: seq<nat>)
    requires Sound(cells, held)
    ensures Ranked(cells, rank) && |rank| == |cells|
  {
    rank :| Ranked(cells, rank);
  }

  lemma SoundParts(cells: seq<Cell>, held: seq<Value>)
    requires Sound(cells, held)
    ensures Acyclic(cells) && Counted(cells, held) && Balanced(cells, held)
  {}

  /** Every object of a route is above what its last one holds. */
  lemma BelowRoute(cells: seq<Cell>, others: seq<Value>, x: nat, path: seq<nat>, chain: seq<nat>, rank: seq<nat>,
                   i: nat, w: nat)
    requires Route(cells, others, x, path, chain) && Ranked(cells, rank) && Live(cells, chain[|chain| - 1])
    requires i < |cells[chain[|chain| - 1]].kids| && cells[chain[|chain| - 1]].kids[i] == Ref(w)
    ensures Live(cells, w) && forall k | 0 <= k < |chain| :: chain[k] < |cells| && rank[chain[k]] > rank[w]
  {
    forall k | 0 <= k < |chain| ensures chain[k] < |cells| && rank[chain[k]] > rank[w] {
      RouteRank(cells, others, x, path, chain, rank, k, |chain| - 1);
      assert cells[chain[|chain| - 1]].kids[i].a == w;
    }
  }

  lemma FreshHere(c0: seq<Cell>, c1: seq<Cell>, others: seq<Value>, extra: seq<Value>, w: nat, c: nat)
    requires PlainCopy(c0, c1, w, c) && Sound(c1, (others + extra) + [Ref(c)])
    ensures InDeg(c1, c) == 0 && Occ(others, c) == 0 && c >= |c0| && Live(c1, c)
  {
    FreshUnheld(c1, others + extra, others, extra, c);
  }

  lemma PlainTwins(c0: seq<Cell>, c1: seq<Cell>, w: nat, c: nat)
    requires PlainCopy(c0, c1, w, c)
    ensures Twins(c1, Ref(w), Ref(c))
  {
    CopyTwins(c1, w, c);
  }

  lemma CountedKids(cells: seq<Cell>, w: nat, b: nat)
    requires w < |cells| && cells[w].Obj? && InDeg(cells, b) == 0
    ensures Occ(cells[w].kids, b) == 0
  {
    InDegHolds(cells, w, b);
  }

  lemma GentlyFrom(c0: seq<Cell>, c2: seq<Cell>, others: seq<Value>, s: set<nat>, keep: nat, w: nat)
    requires Kept(c0, c2) && Calm(c0, c2, others, s) && keep < |c0| && keep != w && w < |c0| && c0[w].Obj?
    requires forall b: nat | b < |c0| :: InDeg(c2, b) == InDeg(c0, b) + Occ(c0[w].kids, b) - (if b == w then 1 else 0)
    requires forall b: nat | b < |c0| && InDeg(c0, b) == 0 :: Occ(c0[w].kids, b) == 0
    ensures Gently(c0, c2, others, s, keep)
  {
    hide InDeg, Occ, Kept, Calm;
  }

  lemma OnlyPut(c0: seq<Cell>, c1: seq<Cell>, p: nat, i: nat, c: nat)
    requires Grown(c0, c1) && Live(c1, p) && i < |c1[p].kids|
    ensures OnlyAt(c0, Put(c1, p, i, Ref(c)), p)
  {}

  lemma LoweredSame(cells: seq<Cell>, a: nat)
    requires Live(cells, a)
    ensures Grown(cells, Lowered(cells, a)) && |Lowered(cells, a)| == |cells|
  {}

  /** The count going down changes nothing else. */
  lemma GentlyLowered(c0: seq<Cell>, c2: seq<Cell>, others: seq<Value>, x: nat, path: seq<nat>, chain: seq<nat>,
                      s: set<nat>, keep: nat, w: nat, p: nat)
    requires Gently(c0, c2, others, s, keep) && Live(c2, w) && Route(c2, others, x, path, chain) && OnlyAt(c0, c2, p)
    requires Live(c0, w) && Recounted(c0, c2, w)
    ensures Gently(c0, Lowered(c2, w), others, s, keep) && Route(Lowered(c2, w), others, x, path, chain)
    ensures Recounted(c0, Lowered(c2, w), w)
    ensures Alone(Lowered(c2, w), others, chain) <==> Alone(c2, others, chain)
    ensures OnlyAt(c0, Lowered(c2, w), p)
  {
    var c3 := Lowered(c2, w);
    LoweredSame(c2, w);
    GrownKept(c2, c3);
    CalmSame(c2, c3, others, s);
    forall a: nat ensures InDeg(c3, a) == InDeg(c2, a) { GrownInDeg(c2, c3, a); }
    RouteGrown(c2, c3, others, x, path, chain);
    hide InDeg, Occ, Kept, Calm, Sole, Means;
    AloneSame(c2, c3, others, chain);
    KeptThrough(c0, c2, c3);
    CalmThrough(c0, c2, c3, others, s);
  }

  /** The write so far: a route from name x, along `path`, through the objects of `chain` to the last of
   *  them, which stands for `end`. */
  datatype Trail = Trail(x: nat, path: seq<nat>, chain: seq<nat>, end: Tree)

  /** It has come to object p. */
  ghost predicate Arrived(cells: seq<Cell>, others: seq<Value>, w: Trail, p: nat) {
    && Route(cells, others, w.x, w.path, w.chain) && |w.path| == |w.chain| - 1
    && p == w.chain[|w.chain| - 1] && Means(cells, Ref(p), w.end)
  }

  /** own_inner on the one slot of p: a shared struct or newtype there gives way to a copy. */
  method OwnInner(h: Heap, p: nat, ghost others: seq<Value>, ghost extra: seq<Value>, ghost x: nat,
                  ghost path: seq<nat>, ghost chain: seq<nat>, ghost s: set<nat>, ghost keep: nat) returns (c: nat)
    requires Ready(h, others + extra) && Route(h.cells, others, x, path, chain) && |path| == |chain| - 1
    requires p == chain[|chain| - 1] && Live(h.cells, p) && |h.cells[p].kids| == 1 && h.cells[p].kids[0].Ref?
    requires var w := h.cells[p].kids[0].a; Live(h.cells, w) && Occ(extra, w) == 0 && w !in s && w != keep
    requires Closed(h.cells, s) && p !in s && keep < |h.cells| && forall b | b in s :: Live(h.cells, b)
    modifies h
    ensures Ready(h, others + extra) && Gently(old(h.cells), h.cells, others, s, keep)
    ensures OnlyAt(old(h.cells), h.cells, p)
    ensures Route(h.cells, others, x, path + [0], chain + [c]) && c !in s
    ensures var w := old(h.cells[p].kids[0].a);
      if StructLike(old(h.cells)[w].kind) && !Sole(old(h.cells), others, w) then
        c >= |old(h.cells)| && Live(h.cells, c) && h.cells[c].kind == old(h.cells)[w].kind
        && h.cells[c].kids == old(h.cells)[w].kids
        && w != p && (Alone(h.cells, others, chain + [c]) <==> Alone(old(h.cells), others, chain))
        && Recounted(old(h.cells), h.cells, w)
      else h.cells == old(h.cells) && c == w
  {
    hide Route, Alone, Acyclic, Kept, Pruned, Balanced, Positive, Shaped, Grown, Sole, Gently, Calm, Closed, InDeg, Occ,
      OnlyAt, Twins, Recounted;
    ghost var c0 := h.cells;
    var w := h.cells[p].kids[0].a;
    SoleFor(h.cells, others, extra, w);
    if !((h.cells[w].kind.Struct? || h.cells[w].kind.Newtype?) && h.cells[w].rc > 1) {
      RouteLonger(h.cells, others, x, path, chain, 0, w);
      GentlySelf(h.cells, others, s, keep);
      OnlySelf(h.cells, p);
      return w;
    }
    c := ShallowCopy(h, w, others + extra);
    ghost var c1 := h.cells;
    GrownKept(c0, c1);
    Replaced(c0, c1, others, extra, x, path, chain, 0, w, c, s, keep);
    NotOwnKid(c0, others + extra, p, 0);
    WStill(c0, c1, others + extra, w);
    SetSlot(h, p, 0, Ref(c), others + extra);
    ghost var c2 := Put(c1, p, 0, Ref(c));
    GentlyLowered(c0, c2, others, x, path + [0], chain + [c], s, keep, w, p);
    assert c2[c] == c1[c] && h.cells[c].kids == c1[c].kids;
    NotIn(s, c0, c);
  }

  lemma NotIn(s: set<nat>, cells: seq<Cell>, c: nat)
    requires c >= |cells| && forall b | b in s :: Live(cells, b)
    ensures c !in s
  {}

  lemma OnlySelf(cells: seq<Cell>, p: nat)
    ensures OnlyAt(cells, cells, p)
  {}

  lemma NotOwnKid(cells: seq<Cell>, held: seq<Value>, p: nat, i: nat)
    requires Sound(cells, held) && Live(cells, p) && i < |cells[p].kids| && cells[p].kids[i].Ref?
    ensures cells[p].kids[i].a != p && Live(cells, cells[p].kids[i].a)
  {
    var rank :| Ranked(cells, rank);
  }

  lemma WStill(c0: seq<Cell>, c1: seq<Cell>, held: seq<Value>, w: nat)
    requires Grown(c0, c1) && Live(c0, w) && c0[w].rc > 1 && Counted(c0, held)
    requires exists c :: PlainCopy(c0, c1, w, c) && Counted(c1, held + [Ref(c)])
    ensures Live(c1, w) && c1[w].rc > 1
  {
    var c :| PlainCopy(c0, c1, w, c) && Counted(c1, held + [Ref(c)]);
    PlainInDeg(c0, c1, w, c, w);
    HeldCount(c1, held, [Ref(c)], w);
    hide InDeg, Occ;
  }

  /* -------------------------------------------------------- vl_setfld's way down */

  /** Nothing in hand, in s, or to be kept, is among the objects looked through. */
  predicate Untouched(extra: seq<Value>, s: set<nat>, keep: nat, ws: seq<nat>) {
    forall k | 0 <= k < |ws| :: Occ(extra, ws[k]) == 0 && ws[k] !in s && ws[k] != keep
  }

  lemma UntouchedRest(extra: seq<Value>, s: set<nat>, keep: nat, ws: seq<nat>)
    requires Untouched(extra, s, keep, ws) && ws != []
    ensures Occ(extra, ws[0]) == 0 && ws[0] !in s && ws[0] != keep && Untouched(extra, s, keep, ws[1..])
  {}

  /** After a copy c of the struct or newtype w, the look goes on from c as it would have from w. */
  lemma LookOnward(c0: seq<Cell>, c1: seq<Cell>, others: seq<Value>, p: nat, w: nat, c: nat, t: Tree, setting: bool)
    requires OnlyAt(c0, c1, p) && Live(c0, w) && w != p && c >= |c0| && Live(c1, c) && c1[c].kids == c0[w].kids
    requires Means(c0, Ref(w), t) && Means(c1, Ref(c), t)
    ensures Look(c1, others, c, t, setting, false, false, Clean).Stuck? <==>
        Look(c0, others, w, t, setting, false, false, Mends).Stuck?
  {
    if Thru(t, setting) {
      WrappedStep(c0, w, t, setting);
      WrappedStep(c1, c, t, setting);
      var d, k := c0[w].kids[0].a, t.kids[0].kind;
      TwoHolders(c1, w, c, d);
      NotSole(c1, others, d);
      if StructLike(k) {
        MendsAnyway(c0, c1, others, others, d, d, t.kids[0], setting, false, false);
      } else {
        StuckStays(c0, others, d, t.kids[0], setting, false, false);
        StuckStays(c1, others, d, t.kids[0], setting, false, false);
      }
    }
  }

  lemma CopyMeans(c0: seq<Cell>, c1: seq<Cell>, p: nat, w: nat, c: nat, t: Tree, others: seq<Value>, s: set<nat>,
                  keep: nat)
    requires Means(c0, Ref(w), t) && Gently(c0, c1, others, s, keep) && OnlyAt(c0, c1, p) && w != p
    requires Live(c1, c) && c1[c].kind == c0[w].kind && c1[c].kids == c0[w].kids
    ensures Means(c1, Ref(c), t)
  {
    hide InDeg, Calm;
    assert Live(c1, w) && c1[w].kids == c0[w].kids;
    KeptValue(c0, c1, Ref(w), t);
  }

  /** p is not inside itself. */
  lemma NotInside(cells: seq<Cell>, held: seq<Value>, p: nat, t: Tree, setting: bool)
    requires Sound(cells, held) && Means(cells, Ref(p), t)
    ensures p !in Wrapped(cells, p, t, setting)
  {
    var rank :| Ranked(cells, rank);
    WrappedRank(cells, rank, p, t, setting);
  }

  ghost predicate DownDone(before: seq<Cell>, after: seq<Cell>, others: seq<Value>, x: nat, path: seq<nat>,
                           chain: seq<nat>, more: seq<nat>, t: Tree, setting: bool, p: nat, e: nat)
    requires Means(before, Ref(p), t)
  {
    && |more| == Depth(t, setting) && e == (if more == [] then p else more[|more| - 1])
    && Route(after, others, x, path + FirstSlots(|more|), chain + more)
    && (Alone(after, others, chain + more)
        <==> Alone(before, others, chain) && !Look(before, others, p, t, setting, false, false, Clean).Stuck?)
    && Live(after, e) && Means(after, Ref(e), CoreTree(t, setting))
    && after[e].kids == before[Core(before, p, t, setting)].kids
  }

  /** vl_setfld, and a method call on a newtype, on their way down to the core: own_inner at every
   *  Box and newtype. */
  method OwnDown(h: Heap, p: nat, setting: bool, ghost w: Trail, ghost others: seq<Value>, ghost extra: seq<Value>,
                 ghost s: set<nat>, ghost keep: nat)
    returns (e: nat, ghost more: seq<nat>)
    requires Ready(h, others + extra) && Arrived(h.cells, others, w, p)
    requires Untouched(extra, s, keep, Wrapped(h.cells, p, w.end, setting))
    requires Closed(h.cells, s) && p !in s && keep < |h.cells| && forall b | b in s :: Live(h.cells, b)
    modifies h
    ensures Ready(h, others + extra) && Gently(old(h.cells), h.cells, others, s, keep) && e !in s
    ensures DownDone(old(h.cells), h.cells, others, w.x, w.path, w.chain, more, w.end, setting, p, e)
    ensures PathShifted(old(h.cells), h.cells, others, w.chain, more, p, w.end, setting, true)
    decreases w.end
  {
    ghost var x, path, chain, t := w.x, w.path, w.chain, w.end;
    Inside(h.cells, p, t);
    ShapeOf(h.cells, others + extra, p);
    hide Route, Alone, Acyclic, Kept, Pruned, Balanced, Positive, Shaped, Grown, Sole, Gently, Calm, Closed, InDeg, Occ,
      OnlyAt, Means, Untouched, Look, DownDone, PathShifted, Recounted;
    ghost var c0 := h.cells;
    if !((h.cells[p].kind.Newtype? || (h.cells[p].kind.Box? && !setting)) && h.cells[p].kids[0].Ref?) {
      GentlySelf(c0, others, s, keep);
      DownNone(c0, others, x, path, chain, t, setting);
      NoneShifted(c0, others, chain, p, t, setting);
      return p, [];
    }
    WrappedStep(c0, p, t, setting);
    ghost var inner, u := h.cells[p].kids[0].a, t.kids[0];
    UntouchedRest(extra, s, keep, Wrapped(c0, p, t, setting));
    assert Wrapped(c0, p, t, setting)[1..] == Wrapped(c0, inner, u, setting);
    NotInside(c0, others + extra, p, t, setting);
    var c := OwnInner(h, p, others, extra, x, path, chain, s, keep);
    ghost var c1 := h.cells;
    InnerNext(c0, c1, others, extra, p, inner, c, u, setting, chain, s, keep);
    assert (chain + [c])[|chain + [c]| - 1] == c;
    ghost var rest;
    e, rest := OwnDown(h, c, setting, Trail(x, path + [0], chain + [c], u), others, extra, s, keep);
    GentlyThrough(c0, c1, h.cells, others, s, keep);
    more := [c] + rest;
    InnerShifted(c0, c1, h.cells, others, others + extra, chain, rest, p, inner, c, t, setting);
    DownMore(c0, c1, h.cells, others, x, path, chain, c, rest, t, setting, p, inner, e);
  }

  lemma NoneShifted(cells: seq<Cell>, others: seq<Value>, chain: seq<nat>, p: nat, t: Tree, setting: bool)
    requires Means(cells, Ref(p), t) && !Thru(t, setting)
    ensures PathShifted(cells, cells, others, chain, [], p, t, setting, true)
  {
    assert chain + [] == chain;
  }

  /** What stays, when the objects looked through are shared as they were. */
  lemma {:induction false} StaysShift(c1: seq<Cell>, c2: seq<Cell>, others: seq<Value>, p: nat, a: nat, t: Tree,
                                      setting: bool, dup: bool, writes: bool)
    requires Means(c1, Ref(a), t) && Means(c2, Ref(a), t)
    requires OnlyAt(c1, c2, p) && a != p && p !in Wrapped(c1, a, t, setting)
    requires forall w | w in Wrapped(c1, a, t, setting) :: Sole(c2, others, w) <==> Sole(c1, others, w)
    ensures Stays(c1, others, a, t, setting, dup, false, writes) == Stays(c2, others, a, t, setting, dup, false, writes)
    decreases t
  {
    if Thru(t, setting) {
      WrappedStep(c1, a, t, setting);
      WrappedStep(c2, a, t, setting);
      var w := c1[a].kids[0].a;
      hide Sole;
      assert w in Wrapped(c1, a, t, setting);
      var copied := StructLike(t.kids[0].kind) && writes && (dup || !Sole(c1, others, w));
      StaysShift(c1, c2, others, p, w, t.kids[0], setting, copied, writes);
    }
  }

  /** What a copied struct or newtype holds is shared, and stays or is copied accordingly. */
  lemma StaysMoved(c0: seq<Cell>, c1: seq<Cell>, others: seq<Value>, rank: seq<nat>, p: nat, w: nat, c: nat, t: Tree,
                   setting: bool)
    requires Ranked(c0, rank) && OnlyAt(c0, c1, p) && Means(c0, Ref(w), t) && Means(c1, Ref(c), t) && w != p
    requires Recounted(c0, c1, w) && c >= |c0| && c1[c].kids == c0[w].kids && p !in Wrapped(c0, w, t, setting)
    ensures Stays(c0, others, w, t, setting, true, false, true) == Stays(c1, others, c, t, setting, false, false, true)
  {
    if Thru(t, setting) {
      WrappedStep(c0, w, t, setting);
      WrappedStep(c1, c, t, setting);
      var d, u := c0[w].kids[0].a, t.kids[0];
      assert c0[w].kids == [Ref(d)] && Wrapped(c0, w, t, setting) == [d] + Wrapped(c0, d, u, setting);
      assert d in Wrapped(c0, w, t, setting);
      assert rank[c0[w].kids[0].a] < rank[w];
      TwoHolders(c1, w, c, d);
      NotSole(c1, others, d);
      WrappedRank(c0, rank, d, u, setting);
      hide InDeg, Occ;
      forall x | x in Wrapped(c0, d, u, setting) ensures Sole(c1, others, x) <==> Sole(c0, others, x) {
        OccOne(Ref(d), x);
      }
      hide Sole, Recounted;
      StaysShift(c0, c1, others, p, d, u, setting, StructLike(u.kind), true);
    }
  }

  lemma StaysNext(cells: seq<Cell>, others: seq<Value>, a: nat, t: Tree, setting: bool, w: nat, writes: bool)
    requires Means(cells, Ref(a), t) && Thru(t, setting) && Live(cells, a) && |cells[a].kids| == 1
    requires cells[a].kids[0] == Ref(w) && Means(cells, Ref(w), t.kids[0])
    ensures var copied := StructLike(t.kids[0].kind) && writes && !Sole(cells, others, w);
      Stays(cells, others, a, t, setting, false, false, writes)
      == (if copied then {} else {w}) + Stays(cells, others, w, t.kids[0], setting, copied, false, writes)
  {}

  lemma MembersMore(chain: seq<nat>, more: seq<nat>)
    ensures Members(chain + more) == Members(chain) + Members(more)
  {
    forall a | a in Members(chain) + Members(more) ensures a in Members(chain + more) {
      if a in Members(chain) {
        var k :| 0 <= k < |chain| && chain[k] == a;
        assert (chain + more)[k] == a;
      } else {
        var k :| 0 <= k < |more| && more[k] == a;
        assert (chain + more)[|chain| + k] == a;
      }
    }
  }

  lemma MembersOne(c: nat)
    ensures Members([c]) == {c}
  {
    assert [c][0] == c;
  }

  /** The objects of the path and those inside its end that stay have become the path as it is now. */
  ghost predicate PathShifted(before: seq<Cell>, after: seq<Cell>, others: seq<Value>, chain: seq<nat>, more: seq<nat>,
                              p: nat, t: Tree, setting: bool, writes: bool)
    requires Means(before, Ref(p), t)
  {
    Shifted(before, Members(chain) + Stays(before, others, p, t, setting, false, false, writes),
            after, Members(chain + more))
  }

  lemma ShiftedOnly(c0: seq<Cell>, c1: seq<Cell>, s: set<nat>, stays: set<nat>, p: nat, c: nat)
    requires OnlyAt(c0, c1, p) && p in s && c >= |c0|
    ensures Shifted(c0, s + stays, c1, (s + {c}) + stays)
  {}

  lemma ShiftedSelf(cells: seq<Cell>, s: set<nat>, stays: set<nat>, w: nat)
    ensures Shifted(cells, s + ({w} + stays), cells, (s + {w}) + stays)
  {}

  /** One object further, the path's objects and those that stay are the same, but for a copy. */
  lemma InnerShifted(c0: seq<Cell>, c1: seq<Cell>, c2: seq<Cell>, others: seq<Value>, held: seq<Value>,
                     chain: seq<nat>, rest: seq<nat>, p: nat, w: nat, c: nat, t: Tree, setting: bool)
    requires Sound(c0, held) && chain != [] && p == chain[|chain| - 1]
    requires Means(c0, Ref(p), t) && Thru(t, setting) && Live(c0, p) && |c0[p].kids| == 1 && c0[p].kids[0] == Ref(w)
    requires Live(c0, w) && Means(c0, Ref(w), t.kids[0]) && Means(c1, Ref(c), t.kids[0]) && OnlyAt(c0, c1, p)
    requires w != p && c0[w].kind == t.kids[0].kind && p !in Wrapped(c0, w, t.kids[0], setting)
    requires if StructLike(c0[w].kind) && !Sole(c0, others, w) then
               c >= |c0| && Live(c1, c) && c1[c].kids == c0[w].kids && Recounted(c0, c1, w)
             else c1 == c0 && c == w
    requires PathShifted(c1, c2, others, chain + [c], rest, c, t.kids[0], setting, true)
    ensures PathShifted(c0, c2, others, chain, [c] + rest, p, t, setting, true)
  {
    hide Sole, Means, Stays, Recounted, Members, OnlyAt, Shifted, Counted, Acyclic, Wrapped;
    var u := t.kids[0];
    var rank := SomeRank(c0, held);
    StaysNext(c0, others, p, t, setting, w, true);
    MembersMore(chain, [c]);
    MembersOne(c);
    LastMember(chain);
    var next := Stays(c1, others, c, u, setting, false, false, true);
    if StructLike(c0[w].kind) && !Sole(c0, others, w) {
      StaysMoved(c0, c1, others, rank, p, w, c, u, setting);
      ShiftedOnly(c0, c1, Members(chain), next, p, c);
    } else {
      ShiftedSelf(c0, Members(chain), next, w);
    }
    assert chain + ([c] + rest) == (chain + [c]) + rest;
    ShiftedThrough(c0, Members(chain) + Stays(c0, others, p, t, setting, false, false, true),
                   c1, Members(chain + [c]) + next, c2, Members(chain + ([c] + rest)));
  }

  lemma LastMember(chain: seq<nat>)
    requires chain != []
    ensures chain[|chain| - 1] in Members(chain)
  {}

  lemma ShapeOf(cells: seq<Cell>, held: seq<Value>, p: nat)
    requires Sound(cells, held) && Live(cells, p)
    ensures cells[p].kind.Box? || cells[p].kind.Newtype? ==> |cells[p].kids| == 1
  {}

  lemma DownNone(cells: seq<Cell>, others: seq<Value>, x: nat, path: seq<nat>, chain: seq<nat>, t: Tree, setting: bool)
    requires Route(cells, others, x, path, chain) && Means(cells, Ref(chain[|chain| - 1]), t) && !Thru(t, setting)
    ensures DownDone(cells, cells, others, x, path, chain, [], t, setting, chain[|chain| - 1], chain[|chain| - 1])
  {
    assert path + FirstSlots(0) == path && chain + [] == chain;
  }

  /** The state before the rest of the way. */
  lemma InnerNext(c0: seq<Cell>, c1: seq<Cell>, others: seq<Value>, extra: seq<Value>, p: nat, w: nat, c: nat, u: Tree,
                  setting: bool, chain: seq<nat>, s: set<nat>, keep: nat)
    requires Means(c0, Ref(w), u) && p !in Wrapped(c0, w, u, setting) && p != w && keep < |c0| && Live(c0, w)
    requires Gently(c0, c1, others, s, keep) && OnlyAt(c0, c1, p) && Closed(c0, s) && forall b | b in s :: Live(c0, b)
    requires if StructLike(c0[w].kind) && !Sole(c0, others, w) then
               c >= |c0| && Live(c1, c) && c1[c].kind == c0[w].kind && c1[c].kids == c0[w].kids
             else c1 == c0 && c == w
    ensures Means(c1, Ref(c), u) && Wrapped(c1, c, u, setting) == Wrapped(c0, w, u, setting)
    ensures c1[Core(c1, c, u, setting)].kids == c0[Core(c0, w, u, setting)].kids
    ensures Closed(c1, s) && keep < |c1| && forall b | b in s :: Live(c1, b)
  {
    hide Sole, InDeg, Kept, Means;
    if c1 != c0 || c != w {
      CopyMeans(c0, c1, p, w, c, u, others, s, keep);
      WrappedMoved(c0, c1, p, w, c, u, setting);
    }
    ClosedStays(c0, c1, others, s);
    assert |c0| <= |c1|;
  }

  lemma LookStep(cells: seq<Cell>, others: seq<Value>, a: nat, t: Tree, setting: bool, w: nat)
    requires Means(cells, Ref(a), t) && Thru(t, setting) && Live(cells, a) && |cells[a].kids| == 1
    requires cells[a].kids[0] == Ref(w)
    requires Means(cells, Ref(w), t.kids[0])
    ensures Look(cells, others, a, t, setting, false, false, Clean)
         == Look(cells, others, w, t.kids[0], setting, false, false,
                 Next(Clean, !Sole(cells, others, w), t.kids[0].kind))
  {}

  lemma DownParts(c0: seq<Cell>, c2: seq<Cell>, others: seq<Value>, x: nat, path: seq<nat>, chain: seq<nat>,
                  more: seq<nat>, t: Tree, setting: bool, p: nat, e: nat)
    requires Means(c0, Ref(p), t) && DownDone(c0, c2, others, x, path, chain, more, t, setting, p, e)
    ensures |more| == Depth(t, setting) && e == (if more == [] then p else more[|more| - 1])
    ensures Route(c2, others, x, path + FirstSlots(|more|), chain + more)
    ensures Alone(c2, others, chain + more)
        <==> Alone(c0, others, chain) && !Look(c0, others, p, t, setting, false, false, Clean).Stuck?
    ensures Live(c2, e) && Means(c2, Ref(e), CoreTree(t, setting)) && c2[e].kids == c0[Core(c0, p, t, setting)].kids
  {
    hide Means, Route, Alone, Look;
  }

  lemma CoreSteps(t: Tree, setting: bool)
    requires Thru(t, setting)
    ensures CoreTree(t, setting) == CoreTree(t.kids[0], setting) && Depth(t, setting) == 1 + Depth(t.kids[0], setting)
  {}

  /** What is stuck below is stuck above. */
  lemma StuckBelow(c0: seq<Cell>, c1: seq<Cell>, others: seq<Value>, chain: seq<nat>, p: nat, w: nat, c: nat, t: Tree,
                   setting: bool)
    requires Means(c0, Ref(p), t) && Thru(t, setting) && Live(c0, p) && |c0[p].kids| == 1 && c0[p].kids[0] == Ref(w)
    requires Means(c0, Ref(w), t.kids[0]) && Means(c1, Ref(c), t.kids[0]) && OnlyAt(c0, c1, p) && Live(c0, w) && w != p
    requires c0[w].kind == t.kids[0].kind
    requires if StructLike(c0[w].kind) && !Sole(c0, others, w) then
               c >= |c0| && Live(c1, c) && c1[c].kids == c0[w].kids
               && (Alone(c1, others, chain + [c]) <==> Alone(c0, others, chain))
             else c1 == c0 && c == w
    ensures (Alone(c1, others, chain + [c]) && !Look(c1, others, c, t.kids[0], setting, false, false, Clean).Stuck?)
       <==> (Alone(c0, others, chain) && !Look(c0, others, p, t, setting, false, false, Clean).Stuck?)
  {
    hide Look, Means, Alone, Sole, OnlyAt, Next;
    var u := t.kids[0];
    LookStep(c0, others, p, t, setting, w);
    AloneLonger(c0, others, chain, w);
    NextIs(u.kind);
    if StructLike(c0[w].kind) && !Sole(c0, others, w) {
      LookOnward(c0, c1, others, p, w, c, u, setting);
    } else if !Sole(c0, others, w) {
      StuckStays(c0, others, w, u, setting, false, false);
    }
  }

  lemma NextIs(k: Kind)
    ensures Next(Clean, false, k) == Clean && Next(Clean, true, k) == if StructLike(k) then Mends else Stuck
  {}

  lemma DownMore(c0: seq<Cell>, c1: seq<Cell>, c2: seq<Cell>, others: seq<Value>, x: nat, path: seq<nat>,
                 chain: seq<nat>, c: nat, rest: seq<nat>, t: Tree, setting: bool, p: nat, w: nat, e: nat)
    requires Means(c0, Ref(p), t) && Thru(t, setting) && Live(c0, p) && |c0[p].kids| == 1 && c0[p].kids[0] == Ref(w)
    requires Means(c0, Ref(w), t.kids[0]) && Means(c1, Ref(c), t.kids[0]) && OnlyAt(c0, c1, p) && Live(c0, w) && w != p
    requires DownDone(c1, c2, others, x, path + [0], chain + [c], rest, t.kids[0], setting, c, e)
    requires c0[w].kind == t.kids[0].kind
    requires c1[Core(c1, c, t.kids[0], setting)].kids == c0[Core(c0, w, t.kids[0], setting)].kids
    requires if StructLike(c0[w].kind) && !Sole(c0, others, w) then
               c >= |c0| && Live(c1, c) && c1[c].kids == c0[w].kids
               && (Alone(c1, others, chain + [c]) <==> Alone(c0, others, chain))
             else c1 == c0 && c == w
    ensures DownDone(c0, c2, others, x, path, chain, [c] + rest, t, setting, p, e)
  {
    hide DownDone, Route, Alone, Look, Means, Sole, OnlyAt, Wrapped, Core, CoreTree, Depth, FirstSlots;
    WrappedStep(c0, p, t, setting);
    CoreSteps(t, setting);
    DownParts(c1, c2, others, x, path + [0], chain + [c], rest, t.kids[0], setting, c, e);
    StuckBelow(c0, c1, others, chain, p, w, c, t, setting);
    FirstSlotsStep(|rest|);
    assert path + ([0] + FirstSlots(|rest|)) == (path + [0]) + FirstSlots(|rest|)
    && chain + ([c] + rest) == (chain + [c]) + rest;
    DownWhole(c0, c2, others, x, path, chain, [c] + rest, t, setting, p, e);
  }

  lemma DownWhole(c0: seq<Cell>, c2: seq<Cell>, others: seq<Value>, x: nat, path: seq<nat>, chain: seq<nat>,
                  more: seq<nat>, t: Tree, setting: bool, p: nat, e: nat)
    requires Means(c0, Ref(p), t) && Live(c0, Core(c0, p, t, setting))
    requires |more| == Depth(t, setting) && e == (if more == [] then p else more[|more| - 1])
    requires Route(c2, others, x, path + FirstSlots(|more|), chain + more)
    requires Alone(c2, others, chain + more)
        <==> Alone(c0, others, chain) && !Look(c0, others, p, t, setting, false, false, Clean).Stuck?
    requires Live(c2, e) && Means(c2, Ref(e), CoreTree(t, setting)) && c2[e].kids == c0[Core(c0, p, t, setting)].kids
    ensures DownDone(c0, c2, others, x, path, chain, more, t, setting, p, e)
  {
    hide Means, Route, Alone, Look;
  }

  /** vl_field and vl_index on their way down to the core. */
  method Descend(h: Heap, p: nat, setting: bool, ghost held: seq<Value>, ghost t: Tree) returns (e: nat)
    requires Ready(h, held) && Means(h.cells, Ref(p), t)
    ensures e == Core(h.cells, p, t, setting)
    decreases t
  {
    Inside(h.cells, p, t);
    ShapeOf(h.cells, held, p);
    if (h.cells[p].kind.Newtype? || (h.cells[p].kind.Box? && !setting)) && h.cells[p].kids[0].Ref? {
      e := Descend(h, h.cells[p].kids[0].a, setting, held, t.kids[0]);
    } else {
      e := p;
    }
  }

  /* -------------------------------------------------------- one level of the path */

  ghost predicate Temps(temps: seq<Value>, chain: seq<nat>) {
    forall k | 0 <= k < |temps| :: temps[k].Ref? && temps[k].a in chain
  }

  lemma {:induction false} TempsAbove(cells: seq<Cell>, others: seq<Value>, x: nat, path: seq<nat>, chain: seq<nat>,
                                      rank: seq<nat>, temps: seq<Value>, b: nat)
    requires Route(cells, others, x, path, chain) && Ranked(cells, rank) && Temps(temps, chain) && Live(cells, b)
    requires rank[b] < rank[chain[|chain| - 1]]
    ensures Occ(temps, b) == 0
  {
    OccSome(temps, b);
    if Ref(b) in temps {
      var k :| 0 <= k < |chain| && chain[k] == b;
      RouteRank(cells, others, x, path, chain, rank, k, |chain| - 1);
    }
  }

  /** The condition, one level on. */
  lemma GoodStep(cells: seq<Cell>, others: seq<Value>, p: nat, t: Tree, i: nat, rest: seq<nat>, target: Target)
    requires Means(cells, Ref(p), t) && Reaches(t, [i] + rest, target)
    ensures Steps(CoreTree(t, false), i) && Reaches(CoreTree(t, false).kids[i], rest, target)
    ensures var u := CoreTree(t, false).kids[i];
      var e := Core(cells, p, t, false);
      u.Node? && Live(cells, e) && i < |cells[e].kids| && cells[e].kids[i].Ref? && Means(cells, cells[e].kids[i], u)
      && var b := cells[e].kids[i].a;
      var sc, copied := Look(cells, others, p, t, false, false, false, Clean), !Sole(cells, others, b);
      GoodFrom(cells, others, p, t, false, false, [i] + rest, target)
      == ((sc.Clean? || (sc.Mends? && copied))
          && GoodFrom(cells, others, b, u, copied && !u.kind.Box?, copied && u.kind.Box?, rest, target))
  {
    assert ([i] + rest)[1..] == rest && !Setting([i] + rest, target);
    DupNowhere(t, false);
    Inside(cells, Core(cells, p, t, false), CoreTree(t, false));
    ReachedNode(CoreTree(t, false).kids[i], rest, target);
    hide Sole, Look, Means, Reaches;
  }

  /** The level value q is read into a temporary and is the path's own as far as the path so far is. */
  ghost predicate LevelDone(before: seq<Cell>, after: seq<Cell>, others: seq<Value>, x: nat, path: seq<nat>,
                            chain: seq<nat>, longer: seq<nat>, p: nat, t: Tree, i: nat, q: nat, rest: seq<nat>,
                            target: Target)
    requires Means(before, Ref(p), t) && Steps(CoreTree(t, false), i)
  {
    var u := CoreTree(t, false).kids[i];
    && Kept(before, after) && Means(after, Ref(q), u)
    && chain <= longer && |longer| == |chain| + Depth(t, false) + 1 && longer[|longer| - 1] == q
    && Route(after, others, x, path + FirstSlots(Depth(t, false)) + [i], longer)
    && (Reaches(t, [i] + rest, target) && Reaches(u, rest, target) ==>
          (Alone(after, others, longer) && GoodFrom(after, others, q, u, false, false, rest, target)
           <==> Alone(before, others, chain) && GoodFrom(before, others, p, t, false, false, [i] + rest, target))
          && Shifted(before, Members(chain) + StaysFrom(before, others, p, t, false, false, [i] + rest, target),
                     after, Members(longer) + StaysFrom(after, others, q, u, false, false, rest, target)))
  }

  /** What stays, one level on. */
  lemma StaysStep(cells: seq<Cell>, others: seq<Value>, p: nat, t: Tree, i: nat, rest: seq<nat>, target: Target)
    requires Means(cells, Ref(p), t) && Reaches(t, [i] + rest, target)
    ensures Steps(CoreTree(t, false), i) && Reaches(CoreTree(t, false).kids[i], rest, target)
    ensures var u := CoreTree(t, false).kids[i];
      var e := Core(cells, p, t, false);
      u.Node? && Live(cells, e) && i < |cells[e].kids| && cells[e].kids[i].Ref? && Means(cells, cells[e].kids[i], u)
      && var b := cells[e].kids[i].a;
      var copied := !Sole(cells, others, b);
      StaysFrom(cells, others, p, t, false, false, [i] + rest, target)
      == Stays(cells, others, p, t, false, false, false, copied && OwnsDown(t)) + (if copied then {} else {b})
         + StaysFrom(cells, others, b, u, copied && !u.kind.Box?, copied && u.kind.Box?, rest, target)
  {
    assert ([i] + rest)[1..] == rest && !Setting([i] + rest, target);
    DupNowhere(t, false);
    Inside(cells, Core(cells, p, t, false), CoreTree(t, false));
    ReachedNode(CoreTree(t, false).kids[i], rest, target);
    hide Sole, Stays, Means, Reaches;
  }

  /** The same for a change of counts only. */
  lemma SameStays(c1: seq<Cell>, c2: seq<Cell>, others: seq<Value>, held: seq<Value>, a: nat, t: Tree,
                  path: seq<nat>, target: Target)
    requires Grown(c1, c2) && |c2| == |c1| && Sound(c1, held) && Means(c1, Ref(a), t) && Means(c2, Ref(a), t)
    requires Reaches(t, path, target)
    ensures StaysFrom(c1, others, a, t, false, false, path, target)
         == StaysFrom(c2, others, a, t, false, false, path, target)
  {
    var rank :| Ranked(c1, rank);
    var m := MaxRank(rank);
    var s := SetBelow(c1, rank, m + 1);
    BelowClosed(c1, rank, m + 1);
    CalmSame(c1, c2, others, s);
    Inside(c1, a, t);
    hide Means, CalmFor, Closed, StaysFrom, Reaches;
    StaysFromSame(c1, c2, others, others, s, a, t, false, false, path, target);
  }

  lemma RaisedKept(cells: seq<Cell>, v: Value)
    requires v.Ref? ==> Live(cells, v.a)
    ensures Grown(cells, Raised(cells, v)) && |Raised(cells, v)| == |cells| && Kept(cells, Raised(cells, v))
  {
    GrownKept(cells, Raised(cells, v));
  }

  /** A change of counts only. */
  lemma SameGood(c1: seq<Cell>, c2: seq<Cell>, others: seq<Value>, held: seq<Value>, a: nat, t: Tree, dup: bool,
                 boxed: bool, path: seq<nat>, target: Target)
    requires Grown(c1, c2) && |c2| == |c1| && Sound(c1, held) && Means(c1, Ref(a), t) && Means(c2, Ref(a), t)
    requires Reaches(t, path, target)
    ensures GoodFrom(c1, others, a, t, dup, boxed, path, target) == GoodFrom(c2, others, a, t, dup, boxed, path, target)
  {
    var rank :| Ranked(c1, rank);
    var m := MaxRank(rank);
    var s := SetBelow(c1, rank, m + 1);
    BelowClosed(c1, rank, m + 1);
    CalmSame(c1, c2, others, s);
    Inside(c1, a, t);
    hide Means, CalmFor, Closed, GoodFrom, Reaches;
    GoodSame(c1, c2, others, others, s, a, t, dup, boxed, path, target);
  }

  /** How alone the path is after a level, and how good. */
  ghost predicate LevelGood(before: seq<Cell>, after: seq<Cell>, others: seq<Value>, chain: seq<nat>, longer: seq<nat>,
                            p: nat, t: Tree, i: nat, q: nat, rest: seq<nat>, target: Target)
    requires Means(before, Ref(p), t) && Steps(CoreTree(t, false), i)
    requires Means(after, Ref(q), CoreTree(t, false).kids[i])
  {
    Reaches(t, [i] + rest, target) && Reaches(CoreTree(t, false).kids[i], rest, target) ==>
      (Alone(after, others, longer)
       && GoodFrom(after, others, q, CoreTree(t, false).kids[i], false, false, rest, target)
       <==> Alone(before, others, chain) && GoodFrom(before, others, p, t, false, false, [i] + rest, target))
  }

  /** And what stays. */
  ghost predicate LevelStays(before: seq<Cell>, after: seq<Cell>, others: seq<Value>, chain: seq<nat>,
                             longer: seq<nat>, p: nat, t: Tree, i: nat, q: nat, rest: seq<nat>, target: Target)
    requires Means(before, Ref(p), t) && Steps(CoreTree(t, false), i)
    requires Means(after, Ref(q), CoreTree(t, false).kids[i])
  {
    Reaches(t, [i] + rest, target) && Reaches(CoreTree(t, false).kids[i], rest, target) ==>
      Shifted(before, Members(chain) + StaysFrom(before, others, p, t, false, false, [i] + rest, target),
              after, Members(longer) + StaysFrom(after, others, q, CoreTree(t, false).kids[i], false, false, rest,
                                                 target))
  }

  lemma PlainStays(c0: seq<Cell>, c1: seq<Cell>, others: seq<Value>, held: seq<Value>, chain: seq<nat>, p: nat, t: Tree,
                   i: nat, v: nat, rest: seq<nat>, target: Target)
    requires Sound(c0, held) && Grown(c0, c1) && |c1| == |c0|
    requires Means(c0, Ref(p), t) && Steps(CoreTree(t, false), i) && Means(c1, Ref(v), CoreTree(t, false).kids[i])
    requires Means(c0, Ref(v), CoreTree(t, false).kids[i]) && Sole(c0, others, v)
    requires var e := Core(c0, p, t, false); Live(c0, e) && i < |c0[e].kids| && c0[e].kids[i] == Ref(v)
    ensures LevelStays(c0, c1, others, chain, chain + Wrapped(c0, p, t, false) + [v], p, t, i, v, rest, target)
  {
    var u, ws := CoreTree(t, false).kids[i], Wrapped(c0, p, t, false);
    hide Means, Sole, Counted, Acyclic, Grown, Core, Reaches, StaysFrom, Stays, CoreTree, Wrapped, Shifted, Members;
    if Reaches(t, [i] + rest, target) && Reaches(u, rest, target) {
      StaysStep(c0, others, p, t, i, rest, target);
      SameStays(c0, c1, others, held, v, u, rest, target);
      StaysAll(c0, others, p, t, false, false);
      MembersMore(chain, ws);
      MembersMore(chain + ws, [v]);
      MembersOne(v);
      var below := StaysFrom(c1, others, v, u, false, false, rest, target);
      assert Members(chain) + (Members(ws) + {v} + below) == Members(chain + ws + [v]) + below;
      ShiftedGrown(c0, c1, Members(chain + ws + [v]) + below);
    }
  }

  lemma PlainGood(c0: seq<Cell>, c1: seq<Cell>, others: seq<Value>, held: seq<Value>, chain: seq<nat>, longer: seq<nat>,
                  p: nat, t: Tree, i: nat, v: nat, rest: seq<nat>, target: Target)
    requires Sound(c0, held) && Grown(c0, c1) && |c1| == |c0|
    requires Means(c0, Ref(p), t) && Steps(CoreTree(t, false), i) && Means(c1, Ref(v), CoreTree(t, false).kids[i])
    requires Means(c0, Ref(v), CoreTree(t, false).kids[i]) && Sole(c0, others, v)
    requires var e := Core(c0, p, t, false); Live(c0, e) && i < |c0[e].kids| && c0[e].kids[i] == Ref(v)
    requires Alone(c1, others, longer) <==>
               Alone(c0, others, chain) && Look(c0, others, p, t, false, false, false, Clean).Clean?
    ensures LevelGood(c0, c1, others, chain, longer, p, t, i, v, rest, target)
  {
    var u := CoreTree(t, false).kids[i];
    hide Means, Alone, Sole, Look, Counted, Acyclic, Grown, Core, Reaches, GoodFrom, CoreTree;
    if Reaches(t, [i] + rest, target) && Reaches(u, rest, target) {
      GoodStep(c0, others, p, t, i, rest, target);
      SameGood(c0, c1, others, held, v, u, false, false, rest, target);
    }
  }

  lemma LevelIs(before: seq<Cell>, after: seq<Cell>, others: seq<Value>, x: nat, path: seq<nat>, chain: seq<nat>,
                more: seq<nat>, p: nat, t: Tree, i: nat, q: nat, rest: seq<nat>, target: Target)
    requires Means(before, Ref(p), t) && Steps(CoreTree(t, false), i)
    requires Means(after, Ref(q), CoreTree(t, false).kids[i])
    requires Kept(before, after) && |more| == Depth(t, false)
    requires Route(after, others, x, path + FirstSlots(|more|) + [i], chain + more + [q])
    requires LevelGood(before, after, others, chain, chain + more + [q], p, t, i, q, rest, target)
    requires LevelStays(before, after, others, chain, chain + more + [q], p, t, i, q, rest, target)
    ensures LevelDone(before, after, others, x, path, chain, chain + more + [q], p, t, i, q, rest, target)
  {
    hide Means, Alone, Route, Kept, GoodFrom, Reaches, StaysFrom, Shifted, Members;
    assert chain + more + [q] == chain + (more + [q]);
  }

  /** A level value held by nobody else is read as it is. */
  lemma LevelPlain(c0: seq<Cell>, others: seq<Value>, held: seq<Value>, x: nat, path: seq<nat>, chain: seq<nat>, p: nat,
                   t: Tree, i: nat, v: nat, rest: seq<nat>, target: Target)
    requires Sound(c0, held) && Route(c0, others, x, path, chain) && |path| == |chain| - 1 && p == chain[|chain| - 1]
    requires Means(c0, Ref(p), t) && Steps(CoreTree(t, false), i) && Live(c0, v) && Sole(c0, others, v)
    requires var e := Core(c0, p, t, false); Live(c0, e) && i < |c0[e].kids| && c0[e].kids[i] == Ref(v)
    ensures LevelDone(c0, Raised(c0, Ref(v)), others, x, path, chain, chain + Wrapped(c0, p, t, false) + [v], p, t, i,
                      v, rest, target)
  {
    var c1 := Raised(c0, Ref(v));
    var ws := Wrapped(c0, p, t, false);
    var e, u := Core(c0, p, t, false), CoreTree(t, false).kids[i];
    var longer := chain + ws + [v];
    hide Route, Alone, Means, Sole, InDeg, Occ, Look, Kept, Grown, Wrapped, Raised, Counted, Acyclic, Core, CoreTree,
      LevelDone, LevelGood, LevelStays;
    RaisedKept(c0, Ref(v));
    KidMeans(c0, e, CoreTree(t, false), i);
    KeptValue(c0, c1, Ref(v), u);
    RouteDown(c0, others, x, path, chain, t, false);
    RouteLonger(c0, others, x, path + FirstSlots(|ws|), chain + ws, i, v);
    AloneLonger(c0, others, chain + ws, v);
    RouteGrown(c0, c1, others, x, path + FirstSlots(|ws|) + [i], longer);
    AloneGrown(c0, c1, others, longer);
    PlainGood(c0, c1, others, held, chain, longer, p, t, i, v, rest, target);
    PlainStays(c0, c1, others, held, chain, p, t, i, v, rest, target);
    LevelIs(c0, c1, others, x, path, chain, ws, p, t, i, v, rest, target);
  }

  lemma KidMeans(cells: seq<Cell>, e: nat, core: Tree, i: nat)
    requires Means(cells, Ref(e), core) && core.Node? && i < |core.kids|
    ensures Live(cells, e) && i < |cells[e].kids| && Means(cells, cells[e].kids[i], core.kids[i])
  {}

  lemma AloneGrown(before: seq<Cell>, after: seq<Cell>, others: seq<Value>, chain: seq<nat>)
    requires Grown(before, after) && |after| == |before|
    ensures Alone(after, others, chain) <==> Alone(before, others, chain)
  {
    forall a: nat ensures InDeg(after, a) == InDeg(before, a) { GrownInDeg(before, after, a); }
    AloneSame(before, after, others, chain);
  }

  /* -------------------------------------------------------- a shared level */

  /** What is below a shared level value, and the copy of it. */
  ghost function Beneath(c1: seq<Cell>, c2: seq<Cell>, rank: seq<nat>, v: nat): set<nat>
    requires |rank| == |c1| && Live(c1, v) && Source(c1, v) < |c1|
  {
    SetBelow(c1, rank, rank[Source(c1, v)]) + set b: nat | |c1| <= b < |c2| && c2[b].Obj?
  }

  lemma BeneathClosed(c1: seq<Cell>, c2: seq<Cell>, rank: seq<nat>, v: nat, u: nat)
    requires Ranked(c1, rank) && Uniqued(c1, c2, v, u) && Grown(c1, c2) && Source(c1, v) < |c1|
    ensures Closed(c2, Beneath(c1, c2, rank, v)) && forall b | b in Beneath(c1, c2, rank, v) :: Live(c2, b)
    ensures u in Beneath(c1, c2, rank, v) && v !in Beneath(c1, c2, rank, v)
  {
    BelowKids(c1, rank, Source(c1, v), rank[Source(c1, v)]);
    BelowClosed(c1, rank, rank[Source(c1, v)]);
  }

  /** Objects not below v are not beneath it. */
  lemma AboveBeneath(c1: seq<Cell>, c2: seq<Cell>, rank: seq<nat>, v: nat, b: nat)
    requires Ranked(c1, rank) && Live(c1, v) && b < |c1| && rank[b] >= rank[v] && Source(c1, v) < |c1|
    ensures b !in Beneath(c1, c2, rank, v)
  {
    SourceRank(c1, rank, v);
  }

  lemma SourceLive(c1: seq<Cell>, c2: seq<Cell>, v: nat, u: nat)
    requires Uniqued(c1, c2, v, u)
    ensures Live(c1, v) && Live(c1, Source(c1, v))
  {}

  /** What is above a copied object has the holders it had. */
  lemma AboveSame(c1: seq<Cell>, c2: seq<Cell>, c3: seq<Cell>, v: nat, u: nat, rank: seq<nat>, b: nat)
    requires Uniqued(c1, c2, v, u) && Grown(c1, c2) && Grown(c2, c3) && |c3| == |c2| && Ranked(c1, rank)
    requires v < |rank| && b < |c1| && b < |rank| && rank[b] >= rank[v]
    ensures InDeg(c3, b) == InDeg(c1, b)
  {
    hide InDeg, Occ, Uniqued;
    SourceLive(c1, c2, v, u);
    UniquedInDeg(c1, c2, v, u, b);
    SourceRank(c1, rank, v);
    NotAbove(c1, rank, Source(c1, v), b);
    GrownInDeg(c2, c3, b);
  }

  lemma WrappedAbove(c1: seq<Cell>, c2: seq<Cell>, c3: seq<Cell>, others: seq<Value>, p: nat, t: Tree, v: nat, u: nat,
                     rank: seq<nat>)
    requires Uniqued(c1, c2, v, u) && Grown(c1, c2) && Grown(c2, c3) && |c3| == |c2| && Ranked(c1, rank)
    requires Means(c1, Ref(p), t) && v < |rank| && rank[Core(c1, p, t, false)] > rank[v]
    ensures forall w | w in Wrapped(c1, p, t, false) :: Sole(c3, others, w) <==> Sole(c1, others, w)
  {
    hide Wrapped, Core, Uniqued, InDeg, Occ, Means;
    WrappedRank(c1, rank, p, t, false);
    var ws := Wrapped(c1, p, t, false);
    forall w | w in ws ensures Sole(c3, others, w) <==> Sole(c1, others, w) {
      var k :| 0 <= k < |ws| && ws[k] == w;
      WrappedRankAt(c1, rank, p, t, false, k);
      AboveSame(c1, c2, c3, v, u, rank, w);
    }
  }

  lemma RouteAbove(cells: seq<Cell>, others: seq<Value>, x: nat, path: seq<nat>, chain: seq<nat>, t: Tree,
                   rank: seq<nat>, v: nat)
    requires Route(cells, others, x, path, chain) && Ranked(cells, rank) && Means(cells, Ref(chain[|chain| - 1]), t)
    requires v < |rank|
    requires Core(cells, chain[|chain| - 1], t, false) < |rank|
    requires rank[Core(cells, chain[|chain| - 1], t, false)] > rank[v]
    ensures forall k | 0 <= k < |chain| :: chain[k] < |cells| && rank[chain[k]] >= rank[v]
  {
    WrappedRank(cells, rank, chain[|chain| - 1], t, false);
    forall k | 0 <= k < |chain| ensures chain[k] < |cells| && rank[chain[k]] >= rank[v] {
      RouteRank(cells, others, x, path, chain, rank, k, |chain| - 1);
    }
  }

  /** The copy is made: the route and the look inside are what they were. */
  lemma CopyMade(c1: seq<Cell>, c2: seq<Cell>, c3: seq<Cell>, others: seq<Value>, x: nat, path: seq<nat>,
                 chain: seq<nat>, p: nat, t: Tree, v: nat, u: nat, rank: seq<nat>)
    requires Uniqued(c1, c2, v, u) && Grown(c1, c2) && Grown(c2, c3) && |c3| == |c2| && Ranked(c1, rank)
    requires Route(c1, others, x, path, chain) && p == chain[|chain| - 1] && Means(c1, Ref(p), t) && v < |rank|
    requires Core(c1, p, t, false) < |rank| && rank[Core(c1, p, t, false)] > rank[v]
    ensures Route(c3, others, x, path, chain) && (Alone(c3, others, chain) <==> Alone(c1, others, chain))
    ensures Kept(c1, c3) && Means(c3, Ref(p), t)
    ensures Look(c3, others, p, t, false, false, false, Clean) == Look(c1, others, p, t, false, false, false, Clean)
    ensures Wrapped(c3, p, t, false) == Wrapped(c1, p, t, false)
    ensures Core(c3, p, t, false) == Core(c1, p, t, false) && Live(c1, Core(c1, p, t, false))
    ensures Live(c3, Core(c1, p, t, false))
    ensures c3[Core(c1, p, t, false)].kids == c1[Core(c1, p, t, false)].kids
    ensures Grown(c1, c3)
    ensures forall w | w in Wrapped(c1, p, t, false) :: Sole(c3, others, w) <==> Sole(c1, others, w)
  {
    hide *;
    GrownThrough(c1, c2, c3);
    GrownKept(c1, c3);
    ChainLast(c1, others, x, path, chain);
    GrownAt(c1, c3, p);
    KeptValue(c1, c3, Ref(p), t);
    RouteAbove(c1, others, x, path, chain, t, rank, v);
    UniquedRoute(c1, c2, others, x, path, chain, v, u, rank);
    RouteGrown(c2, c3, others, x, path, chain);
    AloneGrown(c2, c3, others, chain);
    WrappedAbove(c1, c2, c3, others, p, t, v, u, rank);
    LookShift(c1, c3, others, p, t, false, Clean);
    CoreGrown(c1, c3, p, t, false);
    CoreLive(c1, p, t, false);
    GrownAt(c1, c3, Core(c1, p, t, false));
  }

  lemma ChainLast(cells: seq<Cell>, others: seq<Value>, x: nat, path: seq<nat>, chain: seq<nat>)
    requires Route(cells, others, x, path, chain)
    ensures |chain| > 0 && x < |others| && others[x] == Ref(chain[0]) && Live(cells, chain[|chain| - 1])
  {}

  lemma GrownAt(c1: seq<Cell>, c2: seq<Cell>, p: nat)
    requires Grown(c1, c2) && Live(c1, p)
    ensures Live(c2, p) && c2[p].kids == c1[p].kids
  {}

  lemma CoreLive(cells: seq<Cell>, p: nat, t: Tree, setting: bool)
    requires Means(cells, Ref(p), t)
    ensures Live(cells, Core(cells, p, t, setting))
  {
    Inside(cells, Core(cells, p, t, setting), CoreTree(t, setting));
  }

  lemma {:induction false} CoreGrown(c1: seq<Cell>, c2: seq<Cell>, p: nat, t: Tree, setting: bool)
    requires Grown(c1, c2) && Means(c1, Ref(p), t) && Means(c2, Ref(p), t)
    ensures Core(c2, p, t, setting) == Core(c1, p, t, setting)
    ensures c2[Core(c1, p, t, setting)].kids == c1[Core(c1, p, t, setting)].kids
    decreases t
  {
    if Thru(t, setting) {
      WrappedStep(c1, p, t, setting);
      WrappedStep(c2, p, t, setting);
      CoreGrown(c1, c2, c1[p].kids[0].a, t.kids[0], setting);
    }
  }

  lemma LevelUntouched(c1: seq<Cell>, c2: seq<Cell>, others: seq<Value>, temps: seq<Value>, x: nat, path: seq<nat>,
                       chain: seq<nat>, p: nat, t: Tree, v: nat, u: nat, rank: seq<nat>)
    requires Route(c1, others, x, path, chain) && Ranked(c1, rank) && Temps(temps, chain) && p == chain[|chain| - 1]
    requires Means(c1, Ref(p), t) && Live(c1, v) && rank[Core(c1, p, t, false)] > rank[v] && Source(c1, v) < |c1|
    requires u >= |c1|
    ensures Untouched(temps + [Ref(v)] + [Ref(u)] + [Ref(u)], Beneath(c1, c2, rank, v), v, Wrapped(c1, p, t, false))
    ensures p !in Beneath(c1, c2, rank, v) && Core(c1, p, t, false) !in Beneath(c1, c2, rank, v)
  {
    hide Occ, Beneath, Core, Wrapped;
    WrappedRank(c1, rank, p, t, false);
    var ws, extra := Wrapped(c1, p, t, false), temps + [Ref(v)] + [Ref(u)] + [Ref(u)];
    AboveBeneath(c1, c2, rank, v, p);
    AboveBeneath(c1, c2, rank, v, Core(c1, p, t, false));
    forall k | 0 <= k < |ws| ensures Occ(extra, ws[k]) == 0 && ws[k] !in Beneath(c1, c2, rank, v) && ws[k] != v {
      WrappedRankAt(c1, rank, p, t, false, k);
      AboveBeneath(c1, c2, rank, v, ws[k]);
      TempsAbove(c1, others, x, path, chain, rank, temps, ws[k]);
      OccAppend(temps + [Ref(v)] + [Ref(u)], [Ref(u)], ws[k]);
      OccAppend(temps + [Ref(v)], [Ref(u)], ws[k]);
      OccAppend(temps, [Ref(v)], ws[k]);
      OccOne(Ref(u), ws[k]);
      OccOne(Ref(v), ws[k]);
    }
  }

  /** The state in which a copy u of the level value v is to be written back to slot i of object e. */
  ghost predicate ToStore(c1: seq<Cell>, c2: seq<Cell>, c4: seq<Cell>, others: seq<Value>, x: nat, path: seq<nat>,
                          chain: seq<nat>, more: seq<nat>, p: nat, t: Tree, e: nat, i: nat, v: nat, u: nat, s: set<nat>)
    requires Means(c1, Ref(p), t)
  {
    && Kept(c1, c4) && Kept(c2, c4) && Calm(c2, c4, others, s) && |more| == Depth(t, false)
    && e == (if more == [] then p else more[|more| - 1]) && e !in s
    && Route(c4, others, x, path + FirstSlots(|more|), chain + more)
    && (Alone(c4, others, chain + more)
        <==> Alone(c1, others, chain) && !Look(c1, others, p, t, false, false, false, Clean).Stuck?)
    && Live(c4, e) && i < |c4[e].kids| && c4[e].kids[i] == Ref(v) && Live(c4, u) && InDeg(c4, u) == 0 && Live(c4, v)
    && InDeg(c4, v) >= InDeg(c2, v)
    && PathShifted(c1, c4, others, chain, more, p, t, false, OwnsDown(t))
  }

  /** A copy is written back to a field by way of own_inner. */
  predicate OwnsDown(t: Tree) {
    var core := CoreTree(t, false);
    core.Node? && core.kind.Struct?
  }

  lemma {:induction false} StaysAll(cells: seq<Cell>, others: seq<Value>, a: nat, t: Tree, setting: bool, dup: bool)
    requires Means(cells, Ref(a), t)
    ensures Stays(cells, others, a, t, setting, dup, false, false) == Members(Wrapped(cells, a, t, setting))
    decreases t
  {
    if Thru(t, setting) {
      WrappedStep(cells, a, t, setting);
      var w := cells[a].kids[0].a;
      StaysAll(cells, others, w, t.kids[0], setting, false);
      MembersMore([w], Wrapped(cells, w, t.kids[0], setting));
      MembersOne(w);
    }
  }

  /** Read without being written to. */
  lemma ReadShifted(c1: seq<Cell>, c3: seq<Cell>, others: seq<Value>, chain: seq<nat>, p: nat, t: Tree)
    requires Means(c1, Ref(p), t) && Means(c3, Ref(p), t) && Grown(c1, c3)
    requires Wrapped(c3, p, t, false) == Wrapped(c1, p, t, false)
    ensures PathShifted(c1, c3, others, chain, Wrapped(c3, p, t, false), p, t, false, false)
  {
    StaysAll(c1, others, p, t, false, false);
    MembersMore(chain, Wrapped(c1, p, t, false));
    ShiftedGrown(c1, c3, Members(chain + Wrapped(c1, p, t, false)));
  }

  /** Counts changed, and new objects, none of them on the path. */
  lemma PathGrown(c1: seq<Cell>, c3: seq<Cell>, c4: seq<Cell>, others: seq<Value>, chain: seq<nat>, more: seq<nat>,
                  p: nat, t: Tree, setting: bool, writes: bool)
    requires Means(c1, Ref(p), t) && Means(c3, Ref(p), t) && Grown(c1, c3)
    requires forall w | w in Wrapped(c1, p, t, setting) :: Sole(c3, others, w) <==> Sole(c1, others, w)
    requires PathShifted(c3, c4, others, chain, more, p, t, setting, writes)
    ensures PathShifted(c1, c4, others, chain, more, p, t, setting, writes)
  {
    StaysGrown(c1, c3, others, p, t, setting, writes);
    var s := Members(chain) + Stays(c1, others, p, t, setting, false, false, writes);
    ShiftedGrown(c1, c3, s);
    ShiftedThrough(c1, s, c3, s, c4, Members(chain + more));
  }

  lemma StaysGrown(c1: seq<Cell>, c3: seq<Cell>, others: seq<Value>, p: nat, t: Tree, setting: bool, writes: bool)
    requires Means(c1, Ref(p), t) && Means(c3, Ref(p), t) && Grown(c1, c3)
    requires forall w | w in Wrapped(c1, p, t, setting) :: Sole(c3, others, w) <==> Sole(c1, others, w)
    ensures Stays(c1, others, p, t, setting, false, false, writes)
         == Stays(c3, others, p, t, setting, false, false, writes)
  {
    hide Sole;
    WrappedLive(c1, p, t, setting);
    StaysShift(c1, c3, others, |c1|, p, t, setting, false, writes);
  }

  lemma {:induction false} WrappedLive(cells: seq<Cell>, a: nat, t: Tree, setting: bool)
    requires Means(cells, Ref(a), t)
    ensures Live(cells, a) && forall w | w in Wrapped(cells, a, t, setting) :: Live(cells, w)
    decreases t
  {
    if Thru(t, setting) {
      WrappedStep(cells, a, t, setting);
      WrappedLive(cells, cells[a].kids[0].a, t.kids[0], setting);
    }
  }

  /** The core of a container path is written to as it is: a look inside that is not clean is stuck. */
  lemma ReadOnly(c1: seq<Cell>, c2: seq<Cell>, c3: seq<Cell>, others: seq<Value>, x: nat, path: seq<nat>,
                 chain: seq<nat>, p: nat, t: Tree, i: nat, v: nat, u: nat, s: set<nat>, e: nat)
    requires Route(c3, others, x, path, chain) && |path| == |chain| - 1 && p == chain[|chain| - 1]
    requires Means(c1, Ref(p), t) && Means(c3, Ref(p), t) && Kept(c1, c3) && Kept(c2, c3) && Calm(c2, c3, others, s)
    requires Look(c3, others, p, t, false, false, false, Clean) == Look(c1, others, p, t, false, false, false, Clean)
    requires Alone(c3, others, chain) <==> Alone(c1, others, chain)
    requires e == Core(c3, p, t, false) && e !in s && Live(c3, e) && i < |c3[e].kids| && c3[e].kids[i] == Ref(v)
    requires !StructLike(CoreTree(t, false).kind) && Live(c3, u) && InDeg(c3, u) == 0 && Live(c3, v)
    requires InDeg(c3, v) >= InDeg(c2, v)
    requires CoreTree(t, false).Node? && Grown(c1, c3) && Wrapped(c3, p, t, false) == Wrapped(c1, p, t, false)
    ensures ToStore(c1, c2, c3, others, x, path, chain, Wrapped(c3, p, t, false), p, t, e, i, v, u, s)
  {
    hide Alone, InDeg, Occ, Look, Wrapped, Core, CoreTree, Route, Means, Kept, Calm, Grown, PathShifted;
    assert |Wrapped(c3, p, t, false)| == Depth(t, false);
    RouteDown(c3, others, x, path, chain, t, false);
    MendsStruct(c1, others, p, t, false, false, false, Clean);
    ReadShifted(c1, c3, others, chain, p, t);
  }

  lemma StoreParts(c1: seq<Cell>, c2: seq<Cell>, c4: seq<Cell>, others: seq<Value>, x: nat, path: seq<nat>,
                   chain: seq<nat>, more: seq<nat>, p: nat, t: Tree, e: nat, i: nat, v: nat, u: nat, s: set<nat>)
    requires Means(c1, Ref(p), t) && ToStore(c1, c2, c4, others, x, path, chain, more, p, t, e, i, v, u, s)
    requires |chain| > 0 && p == chain[|chain| - 1] && |path| == |chain| - 1
    ensures Kept(c1, c4) && Kept(c2, c4) && Calm(c2, c4, others, s) && |more| == Depth(t, false)
    ensures e !in s && e == (chain + more)[|chain + more| - 1] && |path + FirstSlots(|more|)| == |chain + more| - 1
    ensures Route(c4, others, x, path + FirstSlots(|more|), chain + more)
    ensures Alone(c4, others, chain + more)
        <==> Alone(c1, others, chain) && !Look(c1, others, p, t, false, false, false, Clean).Stuck?
    ensures Live(c4, e) && i < |c4[e].kids| && c4[e].kids[i] == Ref(v) && Live(c4, u) && InDeg(c4, u) == 0
    ensures Live(c4, v)
    ensures InDeg(c4, v) >= InDeg(c2, v)
    ensures PathShifted(c1, c4, others, chain, more, p, t, false, OwnsDown(t))
  {
    hide Means, Kept, Calm, Route, Alone, Look, InDeg, PathShifted;
  }

  lemma CountsOnly(c5: seq<Cell>, c6: seq<Cell>, others: seq<Value>, x: nat, path: seq<nat>, chain: seq<nat>,
                   s: set<nat>)
    requires Grown(c5, c6) && |c6| == |c5| && Route(c5, others, x, path, chain) && Acyclic(c5)
    ensures Kept(c5, c6) && Calm(c5, c6, others, s) && Route(c6, others, x, path, chain) && Acyclic(c6)
    ensures Alone(c6, others, chain) <==> Alone(c5, others, chain)
  {
    var rank :| Ranked(c5, rank);
    GrownRanked(c5, c6, rank);
    GrownKept(c5, c6);
    CalmSame(c5, c6, others, s);
    RouteGrown(c5, c6, others, x, path, chain);
    AloneGrown(c5, c6, others, chain);
  }

  /** The condition, where the level is shared. */
  lemma CopiedGood(c1: seq<Cell>, c2: seq<Cell>, c6: seq<Cell>, others: seq<Value>, held: seq<Value>, rank: seq<nat>,
                   chain: seq<nat>, longer: seq<nat>, p: nat, t: Tree, i: nat, v: nat, u: nat, rest: seq<nat>,
                   target: Target, s: set<nat>)
    requires Means(c1, Ref(p), t) && Steps(CoreTree(t, false), i) && Means(c6, Ref(u), CoreTree(t, false).kids[i])
    requires var e := Core(c1, p, t, false); Live(c1, e) && i < |c1[e].kids| && c1[e].kids[i] == Ref(v)
    requires Means(c1, Ref(v), CoreTree(t, false).kids[i]) && Means(c2, Ref(u), CoreTree(t, false).kids[i])
    requires !Sole(c1, others, v) && Uniqued(c1, c2, v, u) && Grown(c1, c2) && Ranked(c1, rank)
    requires Balanced(c1, others + held)
    requires Calm(c2, c6, others, s) && Closed(c2, s) && u in s
    requires Alone(c6, others, longer)
        <==> Alone(c1, others, chain) && !Look(c1, others, p, t, false, false, false, Clean).Stuck?
    ensures LevelGood(c1, c6, others, chain, longer, p, t, i, u, rest, target)
  {
    var uT := CoreTree(t, false).kids[i];
    hide Means, Alone, Sole, Look, Balanced, Grown, Core, Reaches, GoodFrom, CoreTree, CalmFor, Closed, Uniqued;
    if Reaches(t, [i] + rest, target) && Reaches(uT, rest, target) {
      GoodStep(c1, others, p, t, i, rest, target);
      UniquedGood(c1, c2, others, held, rank, v, u, uT, rest, target);
      GoodSame(c2, c6, others, others, s, u, uT, false, false, rest, target);
    }
  }

  lemma ShiftedJoin(x: seq<Cell>, s: set<nat>, y: seq<Cell>, t: set<nat>, u: set<nat>)
    requires Shifted(x, s, y, t) && Joined(t, u, |x|)
    ensures Shifted(x, s, y, u)
  {}

  /** A slot of one of the path's objects is written to, and counts change. */
  lemma PathPut(c1: seq<Cell>, c4: seq<Cell>, c6: seq<Cell>, s: set<nat>, t: set<nat>, e: nat, i: nat, w: Value)
    requires Shifted(c1, s, c4, t) && Live(c4, e) && i < |c4[e].kids| && e in t && Grown(Put(c4, e, i, w), c6)
    ensures Shifted(c1, s, c6, t)
  {}

  /** What stays, where the level is shared. */
  lemma CopiedStays(c1: seq<Cell>, c2: seq<Cell>, c4: seq<Cell>, c6: seq<Cell>, others: seq<Value>, held: seq<Value>,
                    rank: seq<nat>, chain: seq<nat>, more: seq<nat>, p: nat, t: Tree, e: nat, i: nat, v: nat, u: nat,
                    rest: seq<nat>, target: Target, s: set<nat>)
    requires Means(c1, Ref(p), t) && Steps(CoreTree(t, false), i) && Means(c6, Ref(u), CoreTree(t, false).kids[i])
    requires var d := Core(c1, p, t, false); Live(c1, d) && i < |c1[d].kids| && c1[d].kids[i] == Ref(v)
    requires Means(c1, Ref(v), CoreTree(t, false).kids[i]) && Means(c2, Ref(u), CoreTree(t, false).kids[i])
    requires !Sole(c1, others, v) && Uniqued(c1, c2, v, u) && Grown(c1, c2) && Ranked(c1, rank)
    requires Balanced(c1, others + held) && Calm(c2, c6, others, s) && Closed(c2, s) && u in s
    requires PathShifted(c1, c4, others, chain, more, p, t, false, OwnsDown(t)) && chain != []
    requires e == (chain + more)[|chain + more| - 1] && Live(c4, e) && i < |c4[e].kids|
    requires Grown(Put(c4, e, i, Ref(u)), c6)
    ensures LevelStays(c1, c6, others, chain, chain + more + [u], p, t, i, u, rest, target)
  {
    var uT := CoreTree(t, false).kids[i];
    hide *;
    if Reaches(t, [i] + rest, target) && Reaches(uT, rest, target) {
      StaysStep(c1, others, p, t, i, rest, target);
      UniquedStays(c1, c2, others, held, rank, v, u, uT, rest, target);
      StaysFromSame(c2, c6, others, others, s, u, uT, false, false, rest, target);
      LastMember(chain + more);
      UniquedNew(c1, c2, v, u);
      var was := StaysFrom(c1, others, v, uT, !uT.kind.Box?, uT.kind.Box?, rest, target);
      PathCopied(c1, c4, c6, others, chain, more, p, t, OwnsDown(t), e, i, u, was,
                 StaysFrom(c6, others, u, uT, false, false, rest, target));
      ThreeSets(Members(chain), Stays(c1, others, p, t, false, false, false, OwnsDown(t)), was);
      LevelStaysIs(c1, c6, others, chain, chain + more + [u], p, t, i, u, rest, target);
    } else {
      NoLevelStays(c1, c6, others, chain, chain + more + [u], p, t, i, u, rest, target);
    }
  }

  lemma ThreeSets(a: set<nat>, b: set<nat>, c: set<nat>)
    ensures a + (b + {} + c) == (a + b) + c
  {}

  lemma UniquedNew(c1: seq<Cell>, c2: seq<Cell>, v: nat, u: nat)
    requires Uniqued(c1, c2, v, u)
    ensures u >= |c1|
  {}

  lemma PathCopied(c1: seq<Cell>, c4: seq<Cell>, c6: seq<Cell>, others: seq<Value>, chain: seq<nat>, more: seq<nat>,
                   p: nat, t: Tree, writes: bool, e: nat, i: nat, u: nat, was: set<nat>, now: set<nat>)
    requires Means(c1, Ref(p), t) && PathShifted(c1, c4, others, chain, more, p, t, false, writes)
    requires e in Members(chain + more) && Live(c4, e) && i < |c4[e].kids| && Grown(Put(c4, e, i, Ref(u)), c6)
    requires Joined(was, now, |c1|) && u >= |c1|
    ensures Shifted(c1, (Members(chain) + Stays(c1, others, p, t, false, false, false, writes)) + was,
                    c6, Members(chain + more + [u]) + now)
  {
    var s := Members(chain) + Stays(c1, others, p, t, false, false, false, writes);
    hide Members, Stays, Shifted, Means;
    PathPut(c1, c4, c6, s, Members(chain + more), e, i, Ref(u));
    ShiftedMore(c1, s, c6, Members(chain + more), was);
    MembersMore(chain + more, [u]);
    MembersOne(u);
    ShiftedJoin(c1, s + was, c6, Members(chain + more) + was, Members(chain + more + [u]) + now);
  }

  lemma LevelStaysIs(c1: seq<Cell>, c6: seq<Cell>, others: seq<Value>, chain: seq<nat>, longer: seq<nat>, p: nat,
                     t: Tree, i: nat, u: nat, rest: seq<nat>, target: Target)
    requires Means(c1, Ref(p), t) && Steps(CoreTree(t, false), i) && Means(c6, Ref(u), CoreTree(t, false).kids[i])
    requires Reaches(t, [i] + rest, target) && Reaches(CoreTree(t, false).kids[i], rest, target)
    requires Shifted(c1, Members(chain) + StaysFrom(c1, others, p, t, false, false, [i] + rest, target),
                     c6, Members(longer) + StaysFrom(c6, others, u, CoreTree(t, false).kids[i], false, false, rest,
                                                     target))
    ensures LevelStays(c1, c6, others, chain, longer, p, t, i, u, rest, target)
  {
    hide Means, Reaches, StaysFrom, Shifted, Members;
  }

  lemma NoLevelStays(c1: seq<Cell>, c6: seq<Cell>, others: seq<Value>, chain: seq<nat>, longer: seq<nat>, p: nat,
                     t: Tree, i: nat, u: nat, rest: seq<nat>, target: Target)
    requires Means(c1, Ref(p), t) && Steps(CoreTree(t, false), i) && Means(c6, Ref(u), CoreTree(t, false).kids[i])
    requires !(Reaches(t, [i] + rest, target) && Reaches(CoreTree(t, false).kids[i], rest, target))
    ensures LevelStays(c1, c6, others, chain, longer, p, t, i, u, rest, target)
  {
    hide Means, Reaches, StaysFrom, Shifted, Members;
  }

  lemma Stored(c1: seq<Cell>, c2: seq<Cell>, c4: seq<Cell>, c6: seq<Cell>, others: seq<Value>, held: seq<Value>,
               rank: seq<nat>, x: nat, path: seq<nat>, chain: seq<nat>, more: seq<nat>, p: nat, t: Tree, e: nat, i: nat,
               v: nat, u: nat, s: set<nat>, rest: seq<nat>, target: Target)
    requires Means(c1, Ref(p), t) && ToStore(c1, c2, c4, others, x, path, chain, more, p, t, e, i, v, u, s)
    requires |chain| > 0 && p == chain[|chain| - 1] && |path| == |chain| - 1 && Steps(CoreTree(t, false), i)
    requires Live(c4, e) && i < |c4[e].kids| && Grown(Put(c4, e, i, Ref(u)), c6) && |c6| == |Put(c4, e, i, Ref(u))|
    requires var d := Core(c1, p, t, false); Live(c1, d) && i < |c1[d].kids| && c1[d].kids[i] == Ref(v)
    requires Acyclic(c4) && Twins(c4, Ref(v), Ref(u)) && Twins(c2, Ref(v), Ref(u)) && Kept(c1, c2) && Live(c2, v)
    requires Live(c2, u)
    requires !Sole(c1, others, v) && Uniqued(c1, c2, v, u) && Grown(c1, c2) && Ranked(c1, rank)
    requires Balanced(c1, others + held)
    requires Closed(c2, s) && u in s && v !in s && Occ(others, u) == 0 && forall b | b in s :: Live(c2, b)
    ensures LevelDone(c1, c6, others, x, path, chain, chain + more + [u], p, t, i, u, rest, target) && Acyclic(c6)
  {
    hide *;
    StoreParts(c1, c2, c4, others, x, path, chain, more, p, t, e, i, v, u, s);
    StoredHeap(c2, c4, c6, others, x, path + FirstSlots(|more|), chain + more, e, i, v, u, s);
    KeptThrough(c1, c4, c6);
    KeptThrough(c2, c4, c6);
    VMeans(c1, c2, c6, p, t, i, v, u, rank);
    CopiedGood(c1, c2, c6, others, held, rank, chain, chain + more + [u], p, t, i, v, u, rest, target, s);
    CopiedStays(c1, c2, c4, c6, others, held, rank, chain, more, p, t, e, i, v, u, rest, target, s);
    LevelIs(c1, c6, others, x, path, chain, more, p, t, i, u, rest, target);
  }

  /** The store of the copy, and what it leaves as it was. */
  lemma StoredHeap(c2: seq<Cell>, c4: seq<Cell>, c6: seq<Cell>, others: seq<Value>, x: nat, full: seq<nat>,
                   chain: seq<nat>, e: nat, i: nat, v: nat, u: nat, s: set<nat>)
    requires Acyclic(c4) && Route(c4, others, x, full, chain) && |full| == |chain| - 1 && e == chain[|chain| - 1]
    requires Live(c4, e) && i < |c4[e].kids| && c4[e].kids[i] == Ref(v) && Twins(c4, Ref(v), Ref(u)) && Live(c4, u)
    requires InDeg(c4, u) + Occ(others, u) == 0 && Calm(c2, c4, others, s) && Closed(c2, s)
    requires (forall b | b in s :: Live(c2, b)) && e !in s && v !in s
    requires Grown(Put(c4, e, i, Ref(u)), c6) && |c6| == |Put(c4, e, i, Ref(u))|
    ensures Kept(c4, c6) && Calm(c2, c6, others, s) && Acyclic(c6) && Live(c6, u)
    ensures Route(c6, others, x, full + [i], chain + [u])
    ensures Alone(c6, others, chain + [u]) <==> Alone(c4, others, chain)
  {
    var c5 := Put(c4, e, i, Ref(u));
    hide *;
    TwinPut(c4, e, i, v, u);
    PutRoute(c4, others, x, full, chain, i, v, u);
    ClosedStays(c2, c4, others, s);
    PutCalm(c4, others, e, i, v, u, s);
    CountsOnly(c5, c6, others, x, full + [i], chain + [u], s);
    CalmThrough(c2, c4, c5, others, s);
    CalmThrough(c2, c5, c6, others, s);
    KeptThrough(c4, c5, c6);
    RouteEnd(c6, others, x, full + [i], chain, u);
  }

  lemma RouteEnd(cells: seq<Cell>, others: seq<Value>, x: nat, path: seq<nat>, chain: seq<nat>, u: nat)
    requires Route(cells, others, x, path, chain + [u])
    ensures Live(cells, u)
  {
    assert (chain + [u])[|chain|] == u;
  }

  /** The copy stands for what the level value did. */
  lemma VMeans(c1: seq<Cell>, c2: seq<Cell>, c6: seq<Cell>, p: nat, t: Tree, i: nat, v: nat, u: nat, rank: seq<nat>)
    requires Means(c1, Ref(p), t) && Steps(CoreTree(t, false), i) && Kept(c1, c2) && Kept(c2, c6) && Ranked(c1, rank)
    requires var d := Core(c1, p, t, false); Live(c1, d) && i < |c1[d].kids| && c1[d].kids[i] == Ref(v)
    requires Twins(c2, Ref(v), Ref(u)) && Live(c2, v) && Live(c2, u) && Live(c6, u)
    ensures Means(c1, Ref(v), CoreTree(t, false).kids[i]) && Means(c2, Ref(u), CoreTree(t, false).kids[i])
    ensures Means(c6, Ref(u), CoreTree(t, false).kids[i])
  {
    var uT := CoreTree(t, false).kids[i];
    KidMeans(c1, Core(c1, p, t, false), CoreTree(t, false), i);
    hide Means, Core, CoreTree;
    KeptValue(c1, c2, Ref(v), uT);
    KeptValue(c2, c6, Ref(u), uT);
  }

  lemma EndMoves(x: seq<Value>, v: Value, u: Value)
    ensures forall a: nat :: Occ(((x + [v]) + [u]), a) == Occ((x + [u]) + [v], a)
  {
    hide Occ;
    forall a: nat ensures Occ((x + [v]) + [u], a) == Occ((x + [u]) + [v], a) {
      OccAppend(x + [v], [u], a);
      OccAppend(x, [v], a);
      OccAppend(x + [u], [v], a);
      OccAppend(x, [u], a);
    }
  }

  lemma ReadySame(cells: seq<Cell>, x: seq<Value>, y: seq<Value>)
    requires Counted(cells, x) && forall a: nat :: Occ(x, a) == Occ(y, a)
    ensures Counted(cells, y)
  {
    SameHeld(cells, x, y);
  }

  /** v has two holders besides the hand that holds it. */
  lemma StillHeld(cells: seq<Cell>, held: seq<Value>, v: nat, e: nat, i: nat)
    requires Counted(cells, held + [Ref(v)]) && Live(cells, e) && i < |cells[e].kids| && cells[e].kids[i] == Ref(v)
    requires Live(cells, v)
    ensures cells[v].rc > 1
  {
    hide InDeg, Occ;
    HeldCount(cells, held, [Ref(v)], v);
    OccOne(Ref(v), v);
    OccSome(cells[e].kids, v);
    InDegHolds(cells, e, v);
  }

  lemma StillHeldAfter(c1: seq<Cell>, c2: seq<Cell>, c4: seq<Cell>, c5: seq<Cell>, others: seq<Value>,
                       temps: seq<Value>, u: nat, e: nat, i: nat, v: nat)
    requires Uniqued(c1, c2, v, u) && Live(c4, e) && i < |c4[e].kids| && c4[e].kids[i] == Ref(v)
    requires InDeg(c4, v) >= InDeg(c2, v)
    requires !Sole(c1, others, v) && u >= |c1| && v < |c1| && Live(c5, v)
    requires Grown(Put(c4, e, i, Ref(u)), c5) && |c5| == |c4| && Counted(c5, ((others + temps) + [Ref(u)]) + [Ref(v)])
    ensures c5[v].rc > 1
  {
    hide InDeg, Occ, Uniqued;
    UniquedInDeg(c1, c2, v, u, v);
    PutInDeg(c4, e, i, v, u, v);
    GrownInDeg(Put(c4, e, i, Ref(u)), c5, v);
    HeldCount(c5, (others + temps) + [Ref(u)], [Ref(v)], v);
    OccOne(Ref(v), v);
    OccAppend(others + temps, [Ref(u)], v);
    OccAppend(others, temps, v);
  }

  lemma ExtraSeq(others: seq<Value>, temps: seq<Value>, v: Value, u: Value)
    ensures (((others + temps) + [v]) + [u]) + [u] == others + (temps + [v] + [u] + [u])
    ensures (others + temps) + [v] == others + (temps + [v])
  {}

  /** What is known once the level value is copied. */
  ghost predicate Copied(c1: seq<Cell>, c2: seq<Cell>, others: seq<Value>, temps: seq<Value>, p: nat, t: Tree, e: nat,
                         v: nat, u: nat, rank: seq<nat>, s: set<nat>)
    requires Means(c1, Ref(p), t)
  {
    && Uniqued(c1, c2, v, u) && Grown(c1, c2) && Ranked(c1, rank) && Kept(c1, c2) && Acyclic(c2)
    && Live(c1, v) && v < |rank| && e < |rank| && rank[e] > rank[v] && Live(c2, v) && Live(c2, u) && u >= |c1|
    && Closed(c2, s) && (forall b | b in s :: Live(c2, b)) && u in s && v !in s && p !in s && e !in s
    && Twins(c2, Ref(v), Ref(u)) && Occ(others, u) == 0 && InDeg(c2, u) == 0
    && Untouched(temps + [Ref(v)] + [Ref(u)] + [Ref(u)], s, v, Wrapped(c1, p, t, false))
  }

  lemma CopyFacts(c1: seq<Cell>, c2: seq<Cell>, others: seq<Value>, temps: seq<Value>, x: nat, path: seq<nat>,
                  chain: seq<nat>, p: nat, t: Tree, e: nat, i: nat, v: nat, u: nat, rank: seq<nat>)
    requires Uniqued(c1, c2, v, u) && Grown(c1, c2) && Kept(c1, c2) && Ranked(c1, rank) && Temps(temps, chain)
    requires Sound(c2, ((others + temps) + [Ref(v)]) + [Ref(u)]) && Source(c1, v) < |c1|
    requires Route(c1, others, x, path, chain) && p == chain[|chain| - 1] && Means(c1, Ref(p), t)
    requires e == Core(c1, p, t, false) && Live(c1, e) && i < |c1[e].kids| && c1[e].kids[i] == Ref(v)
    ensures Copied(c1, c2, others, temps, p, t, e, v, u, rank, Beneath(c1, c2, rank, v))
  {
    assert rank[c1[e].kids[i].a] < rank[e];
    hide InDeg, Occ, Core, Route, Means, Kept, Closed, Beneath, Uniqued, Untouched, Wrapped, Source, Twins, Balanced,
      Positive, Shaped;
    UniquedTwins(c1, c2, v, u);
    BeneathClosed(c1, c2, rank, v, u);
    LevelUntouched(c1, c2, others, temps, x, path, chain, p, t, v, u, rank);
    ExtraSeq(others, temps, Ref(v), Ref(u));
    FreshUnheld(c2, (others + temps) + [Ref(v)], others, temps + [Ref(v)], u);
  }

  /** The copy's own holders are as they were after it is retained. */
  lemma ToStoreFrom(c1: seq<Cell>, c2: seq<Cell>, c3: seq<Cell>, c4: seq<Cell>, others: seq<Value>, temps: seq<Value>,
                    x: nat, path: seq<nat>, chain: seq<nat>, more: seq<nat>, p: nat, t: Tree, e: nat, d: nat, i: nat,
                    v: nat, u: nat, rank: seq<nat>, s: set<nat>)
    requires Means(c1, Ref(p), t) && Means(c3, Ref(p), t) && Copied(c1, c2, others, temps, p, t, e, v, u, rank, s)
    requires Grown(c2, c3) && |c3| == |c2| && Kept(c1, c3) && Gently(c3, c4, others, s, v) && d !in s
    requires DownDone(c3, c4, others, x, path, chain, more, t, false, p, d) && e == Core(c1, p, t, false)
    requires Core(c3, p, t, false) == e && Live(c1, e) && Live(c3, e) && c3[e].kids == c1[e].kids
    requires i < |c1[e].kids| && c1[e].kids[i] == Ref(v) && Live(c4, u) && Live(c4, v)
    requires Alone(c3, others, chain) <==> Alone(c1, others, chain)
    requires Look(c3, others, p, t, false, false, false, Clean) == Look(c1, others, p, t, false, false, false, Clean)
    requires forall w | w in Wrapped(c1, p, t, false) :: Sole(c3, others, w) <==> Sole(c1, others, w)
    requires PathShifted(c3, c4, others, chain, more, p, t, false, true) && OwnsDown(t)
    ensures ToStore(c1, c2, c4, others, x, path, chain, more, p, t, d, i, v, u, s)
  {
    hide Means, Look, Alone, Route, Calm, InDeg, Occ, Closed, Uniqued, Untouched, Wrapped, Core, CoreTree, Twins,
      Acyclic, Ranked, PathShifted, Sole, OwnsDown;
    GrownThrough(c1, c2, c3);
    PathGrown(c1, c3, c4, others, chain, more, p, t, false, true);
    GrownKept(c2, c3);
    KeptThrough(c1, c3, c4);
    KeptThrough(c2, c3, c4);
    CalmSame(c2, c3, others, s);
    CalmThrough(c2, c3, c4, others, s);
    GrownInDeg(c2, c3, u);
    GrownInDeg(c2, c3, v);
  }

  lemma InHand(cells: seq<Cell>, held: seq<Value>, v: nat)
    requires Counted(cells, held) && Ref(v) in held
    ensures Live(cells, v)
  {
    Held(cells, held, v);
  }

  /** The write-back to a field: vl_setfld's way down. */
  method WriteDown(h: Heap, p: nat, ghost w: Trail, ghost others: seq<Value>, ghost temps: seq<Value>, ghost e: nat,
                   ghost i: nat, ghost v: nat, ghost u: nat, ghost rank: seq<nat>, ghost c1: seq<Cell>,
                   ghost c2: seq<Cell>, ghost s: set<nat>)
    returns (d: nat, ghost more: seq<nat>)
    requires Ready(h, (((others + temps) + [Ref(v)]) + [Ref(u)]) + [Ref(u)])
    requires Arrived(c1, others, w, p) && Copied(c1, c2, others, temps, p, w.end, e, v, u, rank, s)
    requires e == Core(c1, p, w.end, false)
    requires Live(c1, e) && i < |c1[e].kids| && c1[e].kids[i] == Ref(v)
    requires Grown(c2, h.cells) && |h.cells| == |c2| && OwnsDown(w.end)
    modifies h
    ensures Ready(h, (((others + temps) + [Ref(v)]) + [Ref(u)]) + [Ref(u)])
    ensures ToStore(c1, c2, h.cells, others, w.x, w.path, w.chain, more, p, w.end, d, i, v, u, s)
  {
    ghost var x, path, chain, t := w.x, w.path, w.chain, w.end;
    hide Route, Alone, Acyclic, Kept, Counted, Grown, Sole, Gently, Calm, Closed, InDeg, Occ, Means, Untouched, Look,
      DownDone, ToStore, Wrapped, Core, CoreTree, Uniqued, Twins, PathShifted, OwnsDown;
    ghost var c3, extra := h.cells, temps + [Ref(v)] + [Ref(u)] + [Ref(u)];
    ExtraSeq(others, temps, Ref(v), Ref(u));
    CopyMade(c1, c2, c3, others, x, path, chain, p, t, v, u, rank);
    CalmSame(c2, c3, others, s);
    ClosedStays(c2, c3, others, s);
    GrownAll(c2, c3, s);
    d, more := OwnDown(h, p, false, w, others, extra, s, v);
    assert Ref(u) in others + extra && Ref(v) in others + extra by {
      assert (others + extra)[|others + extra| - 1] == Ref(u) && (others + extra)[|others + extra| - 3] == Ref(v);
    }
    InHand(h.cells, others + extra, u);
    InHand(h.cells, others + extra, v);
    ToStoreFrom(c1, c2, c3, h.cells, others, temps, x, path, chain, more, p, t, e, d, i, v, u, rank, s);
  }

  lemma GrownAll(c2: seq<Cell>, c3: seq<Cell>, s: set<nat>)
    requires Grown(c2, c3) && forall b | b in s :: Live(c2, b)
    ensures forall b | b in s :: Live(c3, b)
    ensures |c2| <= |c3|
  {}

  /** The write-back to an element: the container is written to as it is. */
  lemma WriteThere(c1: seq<Cell>, c2: seq<Cell>, c3: seq<Cell>, others: seq<Value>, temps: seq<Value>, x: nat,
                   path: seq<nat>, chain: seq<nat>, p: nat, t: Tree, e: nat, i: nat, v: nat, u: nat, rank: seq<nat>,
                   s: set<nat>)
    requires Means(c1, Ref(p), t) && Means(c3, Ref(p), t) && Copied(c1, c2, others, temps, p, t, e, v, u, rank, s)
    requires Route(c1, others, x, path, chain) && |path| == |chain| - 1 && p == chain[|chain| - 1]
    requires e == Core(c1, p, t, false)
    requires Live(c1, e) && i < |c1[e].kids| && c1[e].kids[i] == Ref(v)
    requires Grown(c2, c3) && |c3| == |c2| && CoreTree(t, false).Node? && CoreTree(t, false).kind.Container?
    ensures ToStore(c1, c2, c3, others, x, path, chain, Wrapped(c3, p, t, false), p, t, e, i, v, u, s)
  {
    hide Route, Alone, Acyclic, Kept, Sole, Calm, Closed, InDeg, Occ, Means, Untouched, Look, ToStore, Wrapped, Core,
      CoreTree, Uniqued, Twins;
    CopyMade(c1, c2, c3, others, x, path, chain, p, t, v, u, rank);
    CalmSame(c2, c3, others, s);
    GrownKept(c2, c3);
    GrownInDeg(c2, c3, u);
    GrownInDeg(c2, c3, v);
    ReadOnly(c1, c2, c3, others, x, path, chain, p, t, i, v, u, s, e);
  }

  lemma BeforeStore(c2: seq<Cell>, c4: seq<Cell>, others: seq<Value>, temps: seq<Value>, d: nat, i: nat, v: nat, u: nat)
    requires Sound(c4, (((others + temps) + [Ref(v)]) + [Ref(u)]) + [Ref(u)]) && Acyclic(c2) && Kept(c2, c4)
    requires Live(c4, d) && i < |c4[d].kids| && c4[d].kids[i] == Ref(v) && Live(c4, v) && Live(c4, u) && Live(c2, v)
    requires Twins(c2, Ref(v), Ref(u))
    ensures c4[v].rc > 1 && d != v && Twins(c4, Ref(v), Ref(u))
  {
    TwinsKept(c2, c4, Ref(v), Ref(u));
    var rank :| Ranked(c4, rank);
    assert rank[c4[d].kids[i].a] < rank[d];
    var held := ((others + temps) + [Ref(u)]) + [Ref(u)];
    hide Kept, Twins, Ranked;
    EndMoves(others + temps, Ref(v), Ref(u));
    EndMoves((others + temps) + [Ref(u)], Ref(v), Ref(u));
    forall a: nat ensures Occ((((others + temps) + [Ref(v)]) + [Ref(u)]) + [Ref(u)], a) == Occ(held + [Ref(v)], a) {
      OccAppend(((others + temps) + [Ref(v)]) + [Ref(u)], [Ref(u)], a);
      OccAppend(((others + temps) + [Ref(u)]) + [Ref(v)], [Ref(u)], a);
    }
    hide Occ;
    ReadySame(c4, (((others + temps) + [Ref(v)]) + [Ref(u)]) + [Ref(u)], held + [Ref(v)]);
    StillHeld(c4, held, v, d, i);
  }

  lemma AfterStore(c1: seq<Cell>, c2: seq<Cell>, c4: seq<Cell>, c5: seq<Cell>, others: seq<Value>, temps: seq<Value>,
                   d: nat, i: nat, v: nat, u: nat)
    requires Counted(c5, ((others + temps) + [Ref(v)]) + [Ref(u)]) && Live(c4, d) && i < |c4[d].kids|
    requires c4[d].kids[i] == Ref(v)
    requires Live(c4, v) && d != v && c5 == Lowered(Put(c4, d, i, Ref(u)), v) && InDeg(c4, v) >= InDeg(c2, v)
    requires Uniqued(c1, c2, v, u) && !Sole(c1, others, v) && u >= |c1| && Live(c1, v)
    ensures Counted(c5, ((others + temps) + [Ref(u)]) + [Ref(v)]) && Live(c5, v) && c5[v].rc > 1
    ensures Grown(Put(c4, d, i, Ref(u)), Lowered(c5, v)) && |Lowered(c5, v)| == |Put(c4, d, i, Ref(u))|
  {
    hide Occ, InDeg, Uniqued;
    EndMoves(others + temps, Ref(v), Ref(u));
    ReadySame(c5, ((others + temps) + [Ref(v)]) + [Ref(u)], ((others + temps) + [Ref(u)]) + [Ref(v)]);
    StillHeldAfter(c1, c2, c4, c5, others, temps, u, d, i, v);
  }

  /** UNIQ on a shared level value: it is copied, and the copy written back to where it was read. */
  method LevelCopied(h: Heap, p: nat, i: nat, e: nat, v: nat, ghost w: Trail, ghost others: seq<Value>,
                     ghost temps: seq<Value>, ghost rest: seq<nat>, ghost target: Target)
    returns (q: nat, ghost longer: seq<nat>)
    requires Ready(h, (others + temps) + [Ref(v)]) && Arrived(h.cells, others, w, p) && Temps(temps, w.chain)
    requires Steps(CoreTree(w.end, false), i)
    requires e == Core(h.cells, p, w.end, false) && Live(h.cells, e) && i < |h.cells[e].kids|
    requires h.cells[e].kids[i] == Ref(v)
    requires h.cells[e].kind == CoreTree(w.end, false).kind
    requires Live(h.cells, v) && CowKind(h.cells[v].kind) && h.cells[v].rc > 2 && !Sole(h.cells, others, v)
    modifies h
    ensures Ready(h, (others + temps) + [Ref(q)])
    ensures LevelDone(old(h.cells), h.cells, others, w.x, w.path, w.chain, longer, p, w.end, i, q, rest, target)
  {
    ghost var x, path, chain, t := w.x, w.path, w.chain, w.end;
    hide Route, Alone, Acyclic, Kept, Counted, Grown, Sole, Calm, Closed, InDeg, Occ, Means, Untouched, Look, ToStore,
      LevelDone, Wrapped, Core, CoreTree, Uniqued, Twins, Temps, Beneath, Source, Raised, Lowered, Put, Pruned, Ranked;
    ghost var c1, held := h.cells, (others + temps) + [Ref(v)];
    ghost var rank := SomeRank(c1, held);
    var field := h.cells[e].kind.Struct?;
    var copy := CowUnique(h, Ref(v), 2, held);
    var u := copy.a;
    ghost var c2 := h.cells;
    SourceRank(c1, rank, v);
    ghost var s := Beneath(c1, c2, rank, v);
    CopyFacts(c1, c2, others, temps, x, path, chain, p, t, e, i, v, u, rank);
    Retain(h, copy, held + [copy]);
    ghost var c3 := h.cells;
    RaisedKept(c2, copy);
    CopyMade(c1, c2, c3, others, x, path, chain, p, t, v, u, rank);
    var d;
    ghost var more;
    if field {
      d, more := WriteDown(h, p, w, others, temps, e, i, v, u, rank, c1, c2, s);
    } else {
      d, more := e, Wrapped(c3, p, t, false);
      WriteThere(c1, c2, c3, others, temps, x, path, chain, p, t, e, i, v, u, rank, s);
    }
    ghost var c4 := h.cells;
    StoreParts(c1, c2, c4, others, x, path, chain, more, p, t, d, i, v, u, s);
    BeforeStore(c2, c4, others, temps, d, i, v, u);
    SetSlot(h, d, i, copy, held + [copy]);
    ghost var c5 := h.cells;
    AfterStore(c1, c2, c4, c5, others, temps, d, i, v, u);
    Release(h, Ref(v), (others + temps) + [copy]);
    ExtraSeq(others, temps, Ref(v), copy);
    SoundBalanced(c1, held);
    Stored(c1, c2, c4, h.cells, others, temps + [Ref(v)], rank, x, path, chain, more, p, t, d, i, v, u, s, rest,
           target);
    q := u;
    longer := chain + more + [u];
  }

  lemma SoundBalanced(cells: seq<Cell>, held: seq<Value>)
    requires Sound(cells, held)
    ensures Balanced(cells, held)
  {}

  /** Whether the level value has another holder than its slot is whether its count is above two
   *  once it is in the temporary as well. */
  lemma SharedIsCount(c0: seq<Cell>, others: seq<Value>, temps: seq<Value>, x: nat, path: seq<nat>, chain: seq<nat>,
                      p: nat, t: Tree, e: nat, i: nat, v: nat)
    requires Sound(c0, others + temps) && Route(c0, others, x, path, chain) && p == chain[|chain| - 1]
    requires Temps(temps, chain)
    requires Means(c0, Ref(p), t) && e == Core(c0, p, t, false) && Live(c0, e) && i < |c0[e].kids|
    requires c0[e].kids[i] == Ref(v)
    ensures Live(c0, v) && (Sole(c0, others, v) <==> c0[v].rc + 1 <= 2)
  {
    var rank :| Ranked(c0, rank);
    assert rank[c0[e].kids[i].a] < rank[e];
    hide InDeg, Occ, Core, Wrapped;
    WrappedRank(c0, rank, p, t, false);
    TempsAbove(c0, others, x, path, chain, rank, temps, v);
    HeldCount(c0, others, temps, v);
  }

  lemma LevelFromRaised(c0: seq<Cell>, c1: seq<Cell>, c2: seq<Cell>, others: seq<Value>, held: seq<Value>, x: nat,
                        path: seq<nat>, chain: seq<nat>, longer: seq<nat>, p: nat, t: Tree, i: nat, q: nat,
                        rest: seq<nat>, target: Target)
    requires Sound(c0, held) && Grown(c0, c1) && |c1| == |c0| && Kept(c0, c1) && Means(c0, Ref(p), t)
    requires Means(c1, Ref(p), t)
    requires Steps(CoreTree(t, false), i) && LevelDone(c1, c2, others, x, path, chain, longer, p, t, i, q, rest, target)
    ensures LevelDone(c0, c2, others, x, path, chain, longer, p, t, i, q, rest, target)
  {
    hide Means, Alone, Route, Kept, GoodFrom, Reaches, Counted, Acyclic, Grown, CoreTree, StaysFrom, Shifted, Members;
    KeptThrough(c0, c1, c2);
    AloneGrown(c0, c1, others, chain);
    if Reaches(t, [i] + rest, target) {
      SameGood(c0, c1, others, held, p, t, false, false, [i] + rest, target);
      SameStays(c0, c1, others, held, p, t, [i] + rest, target);
      var u, from := CoreTree(t, false).kids[i], Members(chain) + StaysFrom(c0, others, p, t, false, false, [i] + rest,
                                                                            target);
      ShiftedGrown(c0, c1, from);
      if Reaches(u, rest, target) {
        ShiftedThrough(c0, from, c1, from, c2,
                       Members(longer) + StaysFrom(c2, others, q, u, false, false, rest, target));
      }
    }
  }

  /** One level of the path: read into a temporary, made unique, written back if that took a copy.
   *  Nothing happens where there is no such slot, or no object in it. */
  method Level(h: Heap, p: nat, i: nat, ghost w: Trail, ghost others: seq<Value>, ghost temps: seq<Value>,
               ghost rest: seq<nat>, ghost target: Target)
    returns (found: bool, q: nat, ghost longer: seq<nat>)
    requires Ready(h, others + temps) && Arrived(h.cells, others, w, p) && Temps(temps, w.chain)
    requires var core := CoreTree(w.end, false); Steps(core, i) && core.kids[i].Node? ==> !core.kids[i].kind.Other?
    modifies h
    ensures !found ==> h.cells == old(h.cells) && Ready(h, others + temps)
    ensures found <==> Steps(CoreTree(w.end, false), i) && CoreTree(w.end, false).kids[i].Node?
    ensures found ==> Ready(h, (others + temps) + [Ref(q)])
    ensures found ==>
      LevelDone(old(h.cells), h.cells, others, w.x, w.path, w.chain, longer, p, w.end, i, q, rest, target)
  {
    ghost var c0, x, path, chain, t := h.cells, w.x, w.path, w.chain, w.end;
    var e := Descend(h, p, false, others + temps, t);
    Inside(c0, e, CoreTree(t, false));
    found, q, longer := false, p, chain;
    if !(h.cells[e].kind.Struct? || h.cells[e].kind.Container?) || i >= |h.cells[e].kids| || h.cells[e].kids[i].Plain? {
      return;
    }
    var v := h.cells[e].kids[i];
    Inside(c0, v.a, CoreTree(t, false).kids[i]);
    hide Route, Alone, Acyclic, Kept, Counted, Grown, Sole, InDeg, Occ, Means, Look, LevelDone, Wrapped, Core, CoreTree,
      Temps;
    found := true;
    SharedIsCount(c0, others, temps, x, path, chain, p, t, e, i, v.a);
    Retain(h, v, others + temps);
    RaisedKept(c0, v);
    ghost var c1 := h.cells;
    if h.cells[v.a].rc <= 2 {
      LevelPlain(c0, others, others + temps, x, path, chain, p, t, i, v.a, rest, target);
      return true, v.a, chain + Wrapped(c0, p, t, false) + [v.a];
    }
    SameAt(c0, c1, others, x, path, chain, p, t, e, v.a);
    q, longer := LevelCopied(h, p, i, e, v.a, w, others, temps, rest, target);
    LevelFromRaised(c0, c1, h.cells, others, others + temps, x, path, chain, longer, p, t, i, q, rest, target);
  }

  lemma SameAt(c0: seq<Cell>, c1: seq<Cell>, others: seq<Value>, x: nat, path: seq<nat>, chain: seq<nat>, p: nat,
               t: Tree, e: nat, v: nat)
    requires Grown(c0, c1) && |c1| == |c0| && Kept(c0, c1) && Route(c0, others, x, path, chain) && Means(c0, Ref(p), t)
    requires e == Core(c0, p, t, false) && Live(c0, e) && Live(c0, v) && p == chain[|chain| - 1]
    ensures Route(c1, others, x, path, chain) && Means(c1, Ref(p), t) && e == Core(c1, p, t, false)
    ensures Live(c1, e) && c1[e].kids == c0[e].kids && c1[e].kind == c0[e].kind && Live(c1, v)
    ensures c1[v].kind == c0[v].kind
    ensures Sole(c1, others, v) <==> Sole(c0, others, v)
  {
    RouteGrown(c0, c1, others, x, path, chain);
    ChainLast(c0, others, x, path, chain);
    KeptValue(c0, c1, Ref(p), t);
    CoreGrown(c0, c1, p, t, false);
    GrownInDeg(c0, c1, v);
  }

  /* -------------------------------------------------------- the write */

  /** `mid` is the heap just before the store into slot i of object d. */
  ghost predicate FinalDone(before: seq<Cell>, mid: seq<Cell>, after: seq<Cell>, others: seq<Value>, held: seq<Value>,
                            x: nat, path: seq<nat>, chain: seq<nat>, more: seq<nat>, p: nat, t: Tree, setting: bool,
                            writes: bool, d: nat, i: nat, v: Value)
    requires Means(before, Ref(p), t)
  {
    && PathShifted(before, mid, others, chain, more, p, t, setting, writes)
    && Sound(mid, held) && Kept(before, mid) && Means(mid, Ref(d), CoreTree(t, setting)) && |more| == Depth(t, setting)
    && d == (if more == [] then p else more[|more| - 1]) && Live(mid, d) && i < |mid[d].kids|
    && Route(mid, others, x, path + FirstSlots(|more|), chain + more)
    && (Alone(mid, others, chain + more)
        <==> Alone(before, others, chain) && !Look(before, others, p, t, setting, false, false, Clean).Stuck?)
    && Pruned(Put(mid, d, i, v), after) && Kept(Put(mid, d, i, v), after)
    && (Acyclic(Put(mid, d, i, v)) ==> Acyclic(after))
  }

  lemma FinalFrom(before: seq<Cell>, mid: seq<Cell>, after: seq<Cell>, others: seq<Value>, held: seq<Value>, x: nat,
                  path: seq<nat>, chain: seq<nat>, more: seq<nat>, p: nat, t: Tree, setting: bool, writes: bool, d: nat,
                  i: nat, v: Value)
    requires Means(before, Ref(p), t) && PathShifted(before, mid, others, chain, more, p, t, setting, writes)
    requires DownDone(before, mid, others, x, path, chain, more, t, setting, p, d)
    requires Sound(mid, held) && Kept(before, mid) && Live(mid, d) && i < |mid[d].kids|
    requires Pruned(Put(mid, d, i, v), after) && Kept(Put(mid, d, i, v), after)
    requires (Acyclic(Put(mid, d, i, v)) ==> Acyclic(after))
    ensures FinalDone(before, mid, after, others, held, x, path, chain, more, p, t, setting, writes, d, i, v)
  {
    hide Means, Look, Alone, Route, Kept, Pruned, Acyclic, Counted, Core, CoreTree, PathShifted;
  }

  /** An element store looks inside without copying. */
  lemma ReadDown(cells: seq<Cell>, others: seq<Value>, x: nat, path: seq<nat>, chain: seq<nat>, t: Tree, d: nat)
    requires Route(cells, others, x, path, chain) && |path| == |chain| - 1 && Means(cells, Ref(chain[|chain| - 1]), t)
    requires d == Core(cells, chain[|chain| - 1], t, false) && Live(cells, d) && CoreTree(t, false).Node?
    requires CoreTree(t, false).kind.Container?
    ensures DownDone(cells, cells, others, x, path, chain, Wrapped(cells, chain[|chain| - 1], t, false), t, false,
                     chain[|chain| - 1], d)
  {
    var p := chain[|chain| - 1];
    var ws := Wrapped(cells, p, t, false);
    assert |ws| == Depth(t, false) && d == if ws == [] then p else ws[|ws| - 1];
    hide Means, Look, Alone, Route, Core, CoreTree, Wrapped, Sole;
    RouteDown(cells, others, x, path, chain, t, false);
    MendsStruct(cells, others, p, t, false, false, false, Clean);
  }

  lemma NothingBeneath(extra: seq<Value>, ws: seq<nat>, keep: nat)
    requires forall k | 0 <= k < |ws| :: Occ(extra, ws[k]) == 0 && ws[k] != keep
    ensures Untouched(extra, {}, keep, ws)
  {}

  lemma WrappedFree(cells: seq<Cell>, others: seq<Value>, temps: seq<Value>, x: nat, path: seq<nat>, chain: seq<nat>,
                    t: Tree, setting: bool)
    requires Sound(cells, others + temps) && Route(cells, others, x, path, chain) && Temps(temps, chain)
    requires Means(cells, Ref(chain[|chain| - 1]), t)
    ensures Untouched(temps, {}, chain[|chain| - 1], Wrapped(cells, chain[|chain| - 1], t, setting))
  {
    var rank :| Ranked(cells, rank);
    var p := chain[|chain| - 1];
    var ws := Wrapped(cells, p, t, setting);
    hide Occ, Wrapped, Core;
    forall k | 0 <= k < |ws| ensures Occ(temps, ws[k]) == 0 && ws[k] != p {
      WrappedRankAt(cells, rank, p, t, setting, k);
      TempsAbove(cells, others, x, path, chain, rank, temps, ws[k]);
    }
    NothingBeneath(temps, ws, p);
  }

  lemma SlotThere(cells: seq<Cell>, d: nat, core: Tree, target: Target)
    requires Means(cells, Ref(d), core) && core.Node?
    ensures Live(cells, d)
    ensures Lands(core, target) <==>
      match target
      case Content => cells[d].kind.Box? && |cells[d].kids| == 1
      case Elem(i) => cells[d].kind.Container? && i < |cells[d].kids|
      case Field(i) => cells[d].kind.Struct? && i < |cells[d].kids|
    ensures Lands(core, target) ==> SlotOf(target) < |cells[d].kids|
  {}

  /** The write itself: vl_setfld, vl_setidx, or a Box's `set`. */
  method Final(h: Heap, p: nat, target: Target, v: Value, ghost w: Trail, ghost vars: seq<Value>,
               ghost temps: seq<Value>)
    returns (ok: bool, ghost mid: seq<Cell>, ghost d: nat, ghost more: seq<nat>)
    requires Ready(h, (vars + [v]) + temps) && Arrived(h.cells, vars + [v], w, p) && Temps(temps, w.chain)
    modifies h
    ensures ok == Lands(CoreTree(w.end, target.Content?), target)
    ensures !ok ==> Ready(h, (vars + [v]) + temps) && Kept(old(h.cells), h.cells)
    ensures ok ==> Idle(h, vars + temps)
    ensures ok ==> FinalDone(old(h.cells), mid, h.cells, vars + [v], (vars + [v]) + temps, w.x, w.path, w.chain, more,
                             p, w.end, target.Content?, !target.Elem?, d, SlotOf(target), v)
  {
    ghost var x, path, chain, t := w.x, w.path, w.chain, w.end;
    ghost var c0, others, setting := h.cells, vars + [v], target.Content?;
    Inside(c0, p, t);
    ClosedNone(c0);
    WrappedFree(c0, others, temps, x, path, chain, t, setting);
    hide Route, Alone, Acyclic, Kept, Counted, Grown, Sole, InDeg, Occ, Means, Look, DownDone, FinalDone, Wrapped, Core,
      CoreTree, Temps, Gently, Untouched, Closed, Lands, Pruned, PathShifted;
    var e;
    if target.Elem? {
      e := Descend(h, p, false, others + temps, t);
      more := Wrapped(c0, p, t, false);
      KeptSelf(c0);
      CoreLive(c0, p, t, false);
    } else {
      e, more := OwnDown(h, p, target.Content?, w, others, temps, {}, p);
      GentlyKept(c0, h.cells, others, {}, p);
      DownParts(c0, h.cells, others, x, path, chain, more, t, setting, p, e);
    }
    mid, d := h.cells, e;
    CoreIsNode(t, setting);
    SlotThere(mid, e, CoreTree(t, setting), target);
    match target {
      case Content => ok := h.cells[e].kind.Box? && |h.cells[e].kids| == 1;
      case Elem(i) => ok := h.cells[e].kind.Container? && i < |h.cells[e].kids|;
      case Field(i) => ok := h.cells[e].kind.Struct? && i < |h.cells[e].kids|;
    }
    if !ok { return; }
    if target.Elem? {
      LandsContainer(CoreTree(t, setting), target);
      ReadDown(c0, others, x, path, chain, t, e);
      GrownSelf(c0);
      ReadShifted(c0, c0, others, chain, p, t);
    }
    var slot := match target case Content => 0 case Elem(i) => i case Field(i) => i;
    SwapHeld(vars, [v], temps);
    ReadySame(h.cells, (vars + [v]) + temps, (vars + temps) + [v]);
    SetSlot(h, e, slot, v, vars + temps);
    FinalFrom(c0, mid, h.cells, others, others + temps, x, path, chain, more, p, t, setting, !target.Elem?, d,
              slot, v);
  }

  lemma GentlyKept(before: seq<Cell>, after: seq<Cell>, others: seq<Value>, s: set<nat>, keep: nat)
    requires Gently(before, after, others, s, keep)
    ensures Kept(before, after)
  {}

  lemma ClosedNone(cells: seq<Cell>)
    ensures Closed(cells, {})
  {}

  lemma CoreIsNode(t: Tree, setting: bool)
    requires t.Node?
    ensures CoreTree(t, setting).Node?
  {}

  lemma LandsContainer(core: Tree, target: Target)
    requires Lands(core, target) && target.Elem?
    ensures core.Node? && core.kind.Container?
  {}

  lemma SwapHeld(x: seq<Value>, y: seq<Value>, z: seq<Value>)
    ensures forall a: nat :: Occ((x + y) + z, a) == Occ((x + z) + y, a)
  {
    hide Occ;
    forall a: nat ensures Occ((x + y) + z, a) == Occ((x + z) + y, a) {
      OccAppend(x + y, z, a);
      OccAppend(x, y, a);
      OccAppend(x + z, y, a);
      OccAppend(x, z, a);
    }
  }
}
