/** What a write reaches, and when it reaches nothing that another name can see: a condition on the
 *  counts of the objects on its path, before it starts. */
module CowCondition {
  import opened HeapModel
  import opened ValueMeaning
  import opened ObjectHeap
  import opened CopyOnWrite
  import opened CowPath

  /** A field of a struct, an element of a container, or what a Box holds. */
  datatype Target = Field(i: nat) | Elem(i: nat) | Content

  /* -------------------------------------------------------- the path, in the value */

  /** Fields and elements are looked for inside a Box or a newtype (vl_field, vl_index, vl_deref);
   *  a Box's own method `set` only inside newtypes. */
  predicate Thru(t: Tree, setting: bool) {
    t.Node? && |t.kids| == 1 && t.kids[0].Node? && (t.kind.Newtype? || (t.kind.Box? && !setting))
  }

  predicate Setting(path: seq<nat>, target: Target) {
    path == [] && target.Content?
  }

  function CoreTree(t: Tree, setting: bool): (core: Tree)
    ensures t.Node? ==> core.Node?
  {
    if Thru(t, setting) then CoreTree(t.kids[0], setting) else t
  }

  function Depth(t: Tree, setting: bool): nat {
    if Thru(t, setting) then 1 + Depth(t.kids[0], setting) else 0
  }

  /** The way in through that many Boxes and newtypes. */
  function FirstSlots(n: nat): (s: seq<nat>)
    ensures |s| == n
  {
    seq(n, _ => 0)
  }

  /** The write finds its slot; otherwise the source faults. */
  predicate Lands(core: Tree, target: Target) {
    core.Node?
    && match target
       case Content => core.kind.Box? && |core.kids| == 1
       case Elem(i) => core.kind.Container? && i < |core.kids|
       case Field(i) => core.kind.Struct? && i < |core.kids|
  }

  /** So does every step of the path. */
  predicate Steps(core: Tree, i: nat) {
    core.Node? && (core.kind.Struct? || core.kind.Container?) && i < |core.kids|
  }

  predicate Reaches(t: Tree, path: seq<nat>, target: Target)
    decreases |path|
  {
    var core := CoreTree(t, Setting(path, target));
    if path == [] then Lands(core, target)
    else Steps(core, path[0]) && Reaches(core.kids[path[0]], path[1..], target)
  }

  function SlotOf(target: Target): nat {
    match target case Content => 0 case Elem(i) => i case Field(i) => i
  }

  /** All the slots from the name to the one written. */
  function Slots(t: Tree, path: seq<nat>, target: Target): seq<nat>
    decreases |path|
  {
    var core := CoreTree(t, Setting(path, target));
    FirstSlots(Depth(t, Setting(path, target)))
    + if path == [] then [SlotOf(target)]
      else [path[0]] + if Steps(core, path[0]) then Slots(core.kids[path[0]], path[1..], target) else []
  }

  /** Nothing looked through is of a kind with reference semantics. */
  predicate PlainDown(t: Tree, setting: bool) {
    t.Node? ==> !t.kind.Other? && (Thru(t, setting) ==> PlainDown(t.kids[0], setting))
  }

  predicate PlainPath(t: Tree, path: seq<nat>, target: Target)
    decreases |path|
  {
    var setting := Setting(path, target);
    PlainDown(t, setting)
    && (path != [] && Steps(CoreTree(t, setting), path[0]) ==>
          PlainPath(CoreTree(t, setting).kids[path[0]], path[1..], target))
  }

  /* -------------------------------------------------------- the same, in the heap */

  lemma Inside(cells: seq<Cell>, a: nat, t: Tree)
    requires Means(cells, Ref(a), t)
    ensures Live(cells, a) && t.Node? && cells[a].kind == t.kind && |cells[a].kids| == |t.kids|
    ensures forall k | 0 <= k < |t.kids| :: Means(cells, cells[a].kids[k], t.kids[k])
    ensures forall k | 0 <= k < |t.kids| :: cells[a].kids[k].Ref? <==> t.kids[k].Node?
  {}

  lemma ReachedNode(t: Tree, path: seq<nat>, target: Target)
    requires Reaches(t, path, target)
    ensures t.Node?
  {}

  ghost function Core(cells: seq<Cell>, a: nat, t: Tree, setting: bool): (s: nat)
    requires Means(cells, Ref(a), t)
    ensures Means(cells, Ref(s), CoreTree(t, setting))
    decreases t
  {
    if Thru(t, setting) then
      Inside(cells, a, t);
      Core(cells, cells[a].kids[0].a, t.kids[0], setting)
    else a
  }

  /** What a look inside has met: nothing that is shared; something shared, and all from there on
   *  structs and newtypes, which vl_setfld copies on its way; or something else shared. */
  datatype Scan = Clean | Mends | Stuck

  function Next(sc: Scan, shared: bool, k: Kind): Scan {
    if sc.Clean? && !shared then Clean else if !sc.Stuck? && StructLike(k) then Mends else Stuck
  }

  /** The look inside object a.  `dup`: a is about to be copied, so what it holds gets one more
   *  holder; `boxed`: a is a Box about to be copied, and a struct in it with it. */
  ghost function Look(cells: seq<Cell>, others: seq<Value>, a: nat, t: Tree, setting: bool, dup: bool, boxed: bool,
                      sc: Scan): Scan
    requires Means(cells, Ref(a), t)
    decreases t
  {
    if !Thru(t, setting) then sc
    else
      Inside(cells, a, t);
      var w, k := cells[a].kids[0].a, t.kids[0].kind;
      var copied := boxed && StructLike(k);
      var shared := !copied && (dup || boxed || !Sole(cells, others, w));
      Look(cells, others, w, t.kids[0], setting, copied, false, Next(sc, shared, k))
  }

  /** Whether what the core holds gets one more holder. */
  function DupAtCore(t: Tree, setting: bool, dup: bool, boxed: bool): bool {
    if Thru(t, setting) then DupAtCore(t.kids[0], setting, boxed && StructLike(t.kids[0].kind), false) else dup
  }

  /** The path can be made the writer's own: inside each level, everything is its only holder's;
   *  or what is not are structs and newtypes, and there is a write that copies them: the last one,
   *  or that of the next level, which is shared itself. */
  ghost predicate GoodFrom(cells: seq<Cell>, others: seq<Value>, a: nat, t: Tree, dup: bool, boxed: bool,
                           path: seq<nat>, target: Target)
    requires Means(cells, Ref(a), t) && Reaches(t, path, target)
    decreases |path|
  {
    var setting := Setting(path, target);
    var sc := Look(cells, others, a, t, setting, dup, boxed, Clean);
    if path == [] then !sc.Stuck?
    else
      var u := CoreTree(t, setting).kids[path[0]];
      Inside(cells, Core(cells, a, t, setting), CoreTree(t, setting));
      ReachedNode(u, path[1..], target);
      var b := cells[Core(cells, a, t, setting)].kids[path[0]].a;
      var copied := DupAtCore(t, setting, dup, boxed) || !Sole(cells, others, b);
      (sc.Clean? || (sc.Mends? && copied))
      && GoodFrom(cells, others, b, u, copied && !u.kind.Box?, copied && u.kind.Box?, path[1..], target)
  }

  /** The condition, of an assignment through a name that refers to a.  An object is shared when
   *  its count is above one. */
  ghost predicate Good(cells: seq<Cell>, others: seq<Value>, a: nat, t: Tree, path: seq<nat>, target: Target)
    requires Means(cells, Ref(a), t) && Reaches(t, path, target)
  {
    var copied := !Sole(cells, others, a);
    GoodFrom(cells, others, a, t, copied && !t.kind.Box?, copied && t.kind.Box?, path, target)
  }

  lemma SoleIsCount(cells: seq<Cell>, others: seq<Value>, a: nat)
    requires Counted(cells, others) && Live(cells, a)
    ensures cells[a].rc > 0 && (Sole(cells, others, a) <==> cells[a].rc == 1)
  {
    hide InDeg, Occ;
  }

  /* -------------------------------------------------------- looking inside */

  lemma {:induction false} StuckStays(cells: seq<Cell>, others: seq<Value>, a: nat, t: Tree, setting: bool, dup: bool,
                                      boxed: bool)
    requires Means(cells, Ref(a), t)
    ensures Look(cells, others, a, t, setting, dup, boxed, Stuck) == Stuck
    decreases t
  {
    if Thru(t, setting) {
      StuckStays(cells, others, cells[a].kids[0].a, t.kids[0], setting, boxed && StructLike(t.kids[0].kind), false);
    }
  }

  /** From there on, only the kinds matter. */
  lemma {:induction false} MendsAnyway(c1: seq<Cell>, c2: seq<Cell>, o1: seq<Value>, o2: seq<Value>, a: nat, b: nat,
                                       t: Tree, setting: bool, d1: bool, d2: bool)
    requires Means(c1, Ref(a), t) && Means(c2, Ref(b), t)
    ensures Look(c1, o1, a, t, setting, d1, false, Mends) == Look(c2, o2, b, t, setting, d2, false, Mends)
    decreases t
  {
    if Thru(t, setting) {
      var w1, w2 := c1[a].kids[0].a, c2[b].kids[0].a;
      if StructLike(t.kids[0].kind) {
        MendsAnyway(c1, c2, o1, o2, w1, w2, t.kids[0], setting, false, false);
      } else {
        StuckStays(c1, o1, w1, t.kids[0], setting, false, false);
        StuckStays(c2, o2, w2, t.kids[0], setting, false, false);
      }
    }
  }

  /** What mends ends in a struct. */
  lemma {:induction false} MendsStruct(cells: seq<Cell>, others: seq<Value>, a: nat, t: Tree, setting: bool, dup: bool,
                                       boxed: bool, sc: Scan)
    requires Means(cells, Ref(a), t) && (sc.Mends? ==> StructLike(t.kind))
    ensures Look(cells, others, a, t, setting, dup, boxed, sc).Mends? ==> StructLike(CoreTree(t, setting).kind)
    decreases t
  {
    if Thru(t, setting) {
      var w, k := cells[a].kids[0].a, t.kids[0].kind;
      var copied := boxed && StructLike(k);
      var shared := !copied && (dup || boxed || !Sole(cells, others, w));
      MendsStruct(cells, others, w, t.kids[0], setting, copied, false, Next(sc, shared, k));
    }
  }

  /* -------------------------------------------------------- the condition, elsewhere */

  lemma KidIn(cells: seq<Cell>, s: set<nat>, a: nat, t: Tree, k: nat)
    requires Closed(cells, s) && a in s && Means(cells, Ref(a), t) && k < |t.kids| && t.kids[k].Node?
    ensures cells[a].kids[k].Ref? && cells[a].kids[k].a in s && Ref(cells[a].kids[k].a) in cells[a].kids
  {}

  lemma {:induction false} LookSame(c1: seq<Cell>, c2: seq<Cell>, o1: seq<Value>, o2: seq<Value>, s: set<nat>, a: nat,
                                    t: Tree, setting: bool, dup: bool, boxed: bool, sc: Scan)
    requires Closed(c1, s) && CalmFor(c1, o1, c2, o2, s) && a in s && Means(c1, Ref(a), t) && Means(c2, Ref(a), t)
    ensures Look(c1, o1, a, t, setting, dup, boxed, sc) == Look(c2, o2, a, t, setting, dup, boxed, sc)
    ensures Core(c1, a, t, setting) == Core(c2, a, t, setting) && Core(c1, a, t, setting) in s
    decreases t
  {
    hide Sole, CalmFor, Closed;
    assert c2[a].kids == c1[a].kids by { CalmAt(c1, c2, o1, o2, s, a, 0); }
    if Thru(t, setting) {
      KidIn(c1, s, a, t, 0);
      var w, k := c1[a].kids[0].a, t.kids[0].kind;
      CalmAt(c1, c2, o1, o2, s, a, w);
      var copied := boxed && StructLike(k);
      var shared := !copied && (dup || boxed || !Sole(c1, o1, w));
      LookSame(c1, c2, o1, o2, s, w, t.kids[0], setting, copied, false, Next(sc, shared, k));
    }
  }

  lemma CalmAt(c1: seq<Cell>, c2: seq<Cell>, o1: seq<Value>, o2: seq<Value>, s: set<nat>, a: nat, b: nat)
    requires CalmFor(c1, o1, c2, o2, s) && a in s && Live(c1, a)
    ensures Live(c2, a) && c2[a].kids == c1[a].kids && c2[a].kind == c1[a].kind
    ensures Ref(b) in c1[a].kids ==> (Sole(c2, o2, b) <==> Sole(c1, o1, b))
  {
    hide Sole;
  }

  /** Objects that hold what they held, shared just when it was, are as good as they were. */
  lemma {:induction false} GoodSame(c1: seq<Cell>, c2: seq<Cell>, o1: seq<Value>, o2: seq<Value>, s: set<nat>, a: nat,
                                    t: Tree, dup: bool, boxed: bool, path: seq<nat>, target: Target)
    requires Closed(c1, s) && CalmFor(c1, o1, c2, o2, s) && a in s && Means(c1, Ref(a), t) && Means(c2, Ref(a), t)
    requires Reaches(t, path, target)
    ensures GoodFrom(c1, o1, a, t, dup, boxed, path, target) == GoodFrom(c2, o2, a, t, dup, boxed, path, target)
    decreases |path|
  {
    var setting := Setting(path, target);
    LookSame(c1, c2, o1, o2, s, a, t, setting, dup, boxed, Clean);
    if path != [] {
      var e, core := Core(c1, a, t, setting), CoreTree(t, setting);
      var u := core.kids[path[0]];
      Inside(c1, e, core);
      Inside(c2, e, core);
      ReachedNode(u, path[1..], target);
      KidIn(c1, s, e, core, path[0]);
      var b := c1[e].kids[path[0]].a;
      CalmAt(c1, c2, o1, o2, s, e, b);
      hide Sole, CalmFor, Closed, Look, Means, Reaches;
      var copied := DupAtCore(t, setting, dup, boxed) || !Sole(c1, o1, b);
      GoodSame(c1, c2, o1, o2, s, b, u, copied && !u.kind.Box?, copied && u.kind.Box?, path[1..], target);
    }
  }

  /** Where u is a copy of a, what it holds has two holders. */
  lemma {:induction false} LookCopied(c1: seq<Cell>, c2: seq<Cell>, others: seq<Value>, s: set<nat>, a: nat, u: nat,
                                      t: Tree, setting: bool, sc: Scan)
    requires Closed(c1, s) && Calm(c1, c2, others, s) && Means(c1, Ref(a), t) && Means(c2, Ref(u), t)
    requires c2[u].kids == c1[a].kids && forall k | 0 <= k < |c1[a].kids| && c1[a].kids[k].Ref? ::
                c1[a].kids[k].a in s && !Sole(c2, others, c1[a].kids[k].a)
    requires forall b | b in s :: Live(c1, b)
    ensures Look(c1, others, a, t, setting, true, false, sc) == Look(c2, others, u, t, setting, false, false, sc)
    ensures Thru(t, setting) ==> Core(c1, a, t, setting) == Core(c2, u, t, setting) && Core(c1, a, t, setting) in s
    ensures !Thru(t, setting) ==> Core(c1, a, t, setting) == a && Core(c2, u, t, setting) == u
  {
    hide Sole, CalmFor, Closed;
    if Thru(t, setting) {
      var w, k := c1[a].kids[0].a, t.kids[0].kind;
      Inside(c1, a, t);
      Inside(c2, u, t);
      LookSame(c1, c2, others, others, s, w, t.kids[0], setting, false, false, Next(sc, true, k));
    }
  }

  lemma {:induction false} GoodCopied(c1: seq<Cell>, c2: seq<Cell>, others: seq<Value>, s: set<nat>, a: nat, u: nat,
                                      t: Tree, path: seq<nat>, target: Target)
    requires Closed(c1, s) && Calm(c1, c2, others, s) && Means(c1, Ref(a), t) && Means(c2, Ref(u), t)
    requires c2[u].kids == c1[a].kids && forall k | 0 <= k < |c1[a].kids| && c1[a].kids[k].Ref? ::
                c1[a].kids[k].a in s && !Sole(c2, others, c1[a].kids[k].a)
    requires forall b | b in s :: Live(c1, b)
    requires Reaches(t, path, target)
    ensures GoodFrom(c1, others, a, t, true, false, path, target)
         == GoodFrom(c2, others, u, t, false, false, path, target)
  {
    var setting := Setting(path, target);
    LookCopied(c1, c2, others, s, a, u, t, setting, Clean);
    if path != [] {
      var e1, e2, core := Core(c1, a, t, setting), Core(c2, u, t, setting), CoreTree(t, setting);
      var v := core.kids[path[0]];
      Inside(c1, e1, core);
      Inside(c2, e2, core);
      ReachedNode(v, path[1..], target);
      if Thru(t, setting) {
        KidIn(c1, s, e1, core, path[0]);
        CalmAt(c1, c2, others, others, s, e1, c1[e1].kids[path[0]].a);
      }
      var b := c1[e1].kids[path[0]].a;
      assert c2[e2].kids == c1[e1].kids;
      DupOnlyHere(t, setting);
      hide Sole, CalmFor, Closed, Look, Means, Reaches;
      var copied := DupAtCore(t, setting, true, false) || !Sole(c1, others, b);
      GoodSame(c1, c2, others, others, s, b, v, copied && !v.kind.Box?, copied && v.kind.Box?, path[1..], target);
    }
  }

  lemma DupOnlyHere(t: Tree, setting: bool)
    ensures DupAtCore(t, setting, true, false) == !Thru(t, setting)
    ensures DupAtCore(t, setting, false, false) == false
  {
    if Thru(t, setting) { DupNowhere(t.kids[0], setting); }
    DupNowhere(t, setting);
  }

  lemma {:induction false} DupNowhere(t: Tree, setting: bool)
    ensures DupAtCore(t, setting, false, false) == false
  {
    if Thru(t, setting) { DupNowhere(t.kids[0], setting); }
  }

  lemma ThruReaches(t: Tree, path: seq<nat>, target: Target)
    requires Thru(t, Setting(path, target))
    ensures Reaches(t, path, target) == Reaches(t.kids[0], path, target)
  {}

  /** A level inside which the first object is its holder's own is as good as that object is. */
  lemma GoodThru(cells: seq<Cell>, others: seq<Value>, a: nat, t: Tree, dup: bool, boxed: bool, path: seq<nat>,
                 target: Target)
    requires Means(cells, Ref(a), t) && Reaches(t, path, target) && Thru(t, Setting(path, target))
    requires cells[a].kids[0].Ref? && Means(cells, cells[a].kids[0], t.kids[0]) && Reaches(t.kids[0], path, target)
    requires var copied := boxed && StructLike(t.kids[0].kind);
      copied || (!dup && !boxed && Sole(cells, others, cells[a].kids[0].a))
    ensures GoodFrom(cells, others, a, t, dup, boxed, path, target)
         == GoodFrom(cells, others, cells[a].kids[0].a, t.kids[0], boxed && StructLike(t.kids[0].kind), false, path,
                     target)
  {
    hide Sole, Means;
  }

  ghost function SetBelow(cells: seq<Cell>, rank: seq<nat>, r: nat): set<nat>
    requires |rank| == |cells|
  {
    set b: nat | b < |cells| && cells[b].Obj? && rank[b] < r
  }

  lemma BelowClosed(cells: seq<Cell>, rank: seq<nat>, r: nat)
    requires Ranked(cells, rank)
    ensures Closed(cells, SetBelow(cells, rank, r))
    ensures forall b | b in SetBelow(cells, rank, r) :: Live(cells, b)
  {}

  lemma BelowKids(cells: seq<Cell>, rank: seq<nat>, a: nat, r: nat)
    requires Ranked(cells, rank) && Live(cells, a) && rank[a] <= r
    ensures forall k | 0 <= k < |cells[a].kids|
      && cells[a].kids[k].Ref? :: cells[a].kids[k].a in SetBelow(cells, rank, r)
  {}

  /** A Box whose content is not copied with it shares it from then on. */
  lemma BoxedStuck(cells: seq<Cell>, others: seq<Value>, a: nat, t: Tree, setting: bool, boxed: bool)
    requires Means(cells, Ref(a), t) && t.kind.Box? && Thru(t, setting) && !StructLike(t.kids[0].kind)
    requires cells[a].kids[0].Ref? && (boxed || !Sole(cells, others, cells[a].kids[0].a))
    ensures Look(cells, others, a, t, setting, false, boxed, Clean) == Stuck
  {
    Inside(cells, a, t);
    StuckStays(cells, others, cells[a].kids[0].a, t.kids[0], setting, false, false);
  }

  lemma CopiedKids(c1: seq<Cell>, c2: seq<Cell>, others: seq<Value>, a: nat, u: nat, rank: seq<nat>)
    requires Ranked(c1, rank) && Live(c1, a) && Grown(c1, c2) && Live(c2, u) && u >= |c1| && c2[u].kids == c1[a].kids
    ensures forall k | 0 <= k < |c1[a].kids| && c1[a].kids[k].Ref? ::
              c1[a].kids[k].a in SetBelow(c1, rank, rank[a]) && !Sole(c2, others, c1[a].kids[k].a)
  {
    hide InDeg, Occ;
    BelowKids(c1, rank, a, rank[a]);
    forall k | 0 <= k < |c1[a].kids| && c1[a].kids[k].Ref? ensures !Sole(c2, others, c1[a].kids[k].a) {
      assert c2[a].kids[k] == c2[u].kids[k] == Ref(c1[a].kids[k].a);
      TwoHolders(c2, a, u, c1[a].kids[k].a);
    }
  }

  lemma NewUnheld(cells: seq<Cell>, others: seq<Value>, held: seq<Value>, v: nat)
    requires Balanced(cells, others + held) && Live(cells, v)
    ensures InDeg(cells, |cells|) == 0 && Occ(others, |cells|) == 0 && Occ(cells[v].kids, |cells|) == 0
  {
    hide InDeg, Occ;
    OccAppend(others, held, |cells|);
    InDegHolds(cells, v, |cells|);
  }

  /** What vl_cow_unique returns is as good as what it was given, about to be copied. */
  lemma UniquedGood(c1: seq<Cell>, c2: seq<Cell>, others: seq<Value>, held: seq<Value>, rank: seq<nat>, v: nat, u: nat,
                    t: Tree, path: seq<nat>, target: Target)
    requires Uniqued(c1, c2, v, u) && Grown(c1, c2) && Ranked(c1, rank) && Balanced(c1, others + held)
    requires Means(c1, Ref(v), t) && Means(c2, Ref(u), t) && Reaches(t, path, target)
    ensures GoodFrom(c1, others, v, t, !t.kind.Box?, t.kind.Box?, path, target)
         == GoodFrom(c2, others, u, t, false, false, path, target)
  {
    Inside(c1, v, t);
    Inside(c2, u, t);
    var r := rank[Source(c1, v)];
    var s := SetBelow(c1, rank, r);
    BelowClosed(c1, rank, r);
    UniquedCalm(c1, c2, others, v, u, s);
    hide Calm, Closed, Balanced, Look, Sole;
    if !t.kind.Box? {
      CopiedKids(c1, c2, others, v, u, rank);
      GoodCopied(c1, c2, others, s, v, u, t, path, target);
    } else if Holds(c1, v) {
      BoxedGood(c1, c2, others, held, rank, v, u, t, path, target);
    } else if Thru(t, Setting(path, target)) {
      var w := c1[v].kids[0].a;
      TwoHolders(c2, v, u, w);
      assert !Sole(c2, others, w) by { NotSole(c2, others, w); }
      BoxedStuck(c1, others, v, t, Setting(path, target), true);
      BoxedStuck(c2, others, u, t, Setting(path, target), false);
    } else {
      BoxAlone(c1, others, v, t, true, path, target);
      BoxAlone(c2, others, u, t, false, path, target);
    }
  }

  lemma NotSole(cells: seq<Cell>, others: seq<Value>, w: nat)
    requires InDeg(cells, w) >= 2
    ensures !Sole(cells, others, w)
  {}

  /** A Box that is not looked into. */
  lemma BoxAlone(cells: seq<Cell>, others: seq<Value>, a: nat, t: Tree, boxed: bool, path: seq<nat>, target: Target)
    requires Means(cells, Ref(a), t) && t.kind.Box? && Reaches(t, path, target) && !Thru(t, Setting(path, target))
    ensures GoodFrom(cells, others, a, t, false, boxed, path, target)
  {}

  lemma BoxedGood(c1: seq<Cell>, c2: seq<Cell>, others: seq<Value>, held: seq<Value>, rank: seq<nat>, v: nat, u: nat,
                  t: Tree, path: seq<nat>, target: Target)
    requires Uniqued(c1, c2, v, u) && Grown(c1, c2) && Ranked(c1, rank) && Balanced(c1, others + held)
    requires Means(c1, Ref(v), t) && Means(c2, Ref(u), t) && Reaches(t, path, target) && t.kind.Box? && Holds(c1, v)
    ensures GoodFrom(c1, others, v, t, false, true, path, target)
         == GoodFrom(c2, others, u, t, false, false, path, target)
  {
    Inside(c1, v, t);
    Inside(c2, u, t);
    if Thru(t, Setting(path, target)) {
      var w, c := c1[v].kids[0].a, |c1|;
      var s := SetBelow(c1, rank, rank[w]);
      BelowClosed(c1, rank, rank[w]);
      UniquedCalm(c1, c2, others, v, u, s);
      CopiedKids(c1, c2, others, w, c, rank);
      assert c2[u].kids[0] == Ref(c);
      ThruReaches(t, path, target);
      assert Sole(c2, others, c) by {
        hide InDeg, Occ;
        NewUnheld(c1, others, held, w);
        BoxInDeg(c1, c2, v, w, u, c);
      }
      hide Calm, Closed, Balanced, Look, Sole, Uniqued;
      Inside(c1, w, t.kids[0]);
      GoodThru(c1, others, v, t, false, true, path, target);
      GoodThru(c2, others, u, t, false, false, path, target);
      GoodCopied(c1, c2, others, s, w, c, t.kids[0], path, target);
    } else {
      BoxAlone(c1, others, v, t, true, path, target);
      BoxAlone(c2, others, u, t, false, path, target);
    }
  }
}
