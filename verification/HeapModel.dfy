/** Reference-counted objects as a table of cells, and what it means for the counts to be right. */
module HeapModel {
  /** A value holds no object, or one reference to the object at an address. */
  datatype Value = Plain(n: int) | Ref(a: nat)

  /** The kinds that matter to a release or a write; `Other` is never written in place by value. */
  datatype Kind = Box | Newtype | Struct | Container | Other

  datatype Cell = Free | Obj(rc: int, kind: Kind, kids: seq<Value>)

  predicate Live(cells: seq<Cell>, a: nat) {
    a < |cells| && cells[a].Obj?
  }

  /** How many values of vs are references to a. */
  function Occ(vs: seq<Value>, a: nat): nat {
    if vs == [] then 0 else (if vs[0] == Ref(a) then 1 else 0) + Occ(vs[1..], a)
  }

  function Kids(c: Cell): seq<Value> {
    if c.Obj? then c.kids else []
  }

  /** How many fields of all objects refer to a. */
  function InDeg(cells: seq<Cell>, a: nat): nat {
    if cells == [] then 0 else Occ(Kids(cells[0]), a) + InDeg(cells[1..], a)
  }

  /** Every count is in-degree plus the references held outside, and nothing dangles. */
  ghost predicate Balanced(cells: seq<Cell>, held: seq<Value>) {
    forall a: nat :: (Live(cells, a) ==> cells[a].rc == InDeg(cells, a) + Occ(held, a))
                  && (!Live(cells, a) ==> InDeg(cells, a) + Occ(held, a) == 0)
  }

  /** The object graph has no cycle: every reference goes to an object of lower rank. */
  ghost predicate Ranked(cells: seq<Cell>, rank: seq<nat>) {
    |rank| == |cells|
    && forall a, k | 0 <= a < |cells| && cells[a].Obj? && 0 <= k < |cells[a].kids| && cells[a].kids[k].Ref? ::
         Live(cells, cells[a].kids[k].a) && rank[cells[a].kids[k].a] < rank[a]
  }

  ghost predicate Acyclic(cells: seq<Cell>) {
    exists rank :: Ranked(cells, rank)
  }

  /** Every object has at least one holder. */
  ghost predicate Positive(cells: seq<Cell>) {
    forall a: nat | Live(cells, a) :: cells[a].rc > 0
  }

  /* -------------------------------------------------------- counting */

  lemma {:induction false} OccAppend(x: seq<Value>, y: seq<Value>, a: nat)
    ensures Occ(x + y, a) == Occ(x, a) + Occ(y, a)
  {
    if x == [] {
      assert x + y == y;
    } else {
      assert (x + y)[1..] == x[1..] + y;
      OccAppend(x[1..], y, a);
    }
  }

  lemma {:induction false} OccUpdate(x: seq<Value>, i: nat, v: Value, a: nat)
    requires i < |x|
    ensures Occ(x[i := v], a) == Occ(x, a) - Occ([x[i]], a) + Occ([v], a)
  {
    assert x == x[..i] + ([x[i]] + x[i + 1..]);
    assert x[i := v] == x[..i] + ([v] + x[i + 1..]);
    OccAppend(x[..i], [x[i]] + x[i + 1..], a);
    OccAppend(x[..i], [v] + x[i + 1..], a);
    OccAppend([x[i]], x[i + 1..], a);
    OccAppend([v], x[i + 1..], a);
  }

  lemma {:induction false} OccSome(x: seq<Value>, a: nat)
    ensures Occ(x, a) > 0 <==> Ref(a) in x
  {
    if x != [] { OccSome(x[1..], a); }
  }

  lemma {:induction false} InDegUpdate(cells: seq<Cell>, i: nat, c: Cell, a: nat)
    requires i < |cells|
    ensures InDeg(cells[i := c], a) == InDeg(cells, a) - Occ(Kids(cells[i]), a) + Occ(Kids(c), a)
  {
    if i == 0 {
      assert cells[i := c][1..] == cells[1..];
    } else {
      assert cells[i := c][1..] == cells[1..][i - 1 := c];
      InDegUpdate(cells[1..], i - 1, c, a);
    }
  }

  lemma {:induction false} InDegAppend(cells: seq<Cell>, c: Cell, a: nat)
    ensures InDeg(cells + [c], a) == InDeg(cells, a) + Occ(Kids(c), a)
  {
    if cells == [] {
      assert cells + [c] == [c];
    } else {
      assert (cells + [c])[1..] == cells[1..] + [c];
      InDegAppend(cells[1..], c, a);
    }
  }

  /** A referred-to object has an object that refers to it. */
  lemma {:induction false} InDegSome(cells: seq<Cell>, a: nat) returns (b: nat)
    requires InDeg(cells, a) > 0
    ensures b < |cells| && Ref(a) in Kids(cells[b])
  {
    OccSome(Kids(cells[0]), a);
    if Ref(a) in Kids(cells[0]) {
      b := 0;
    } else {
      var b' := InDegSome(cells[1..], a);
      b := b' + 1;
    }
  }

  lemma {:induction false} InDegHolds(cells: seq<Cell>, b: nat, a: nat)
    requires b < |cells|
    ensures InDeg(cells, a) >= Occ(Kids(cells[b]), a)
  {
    if b > 0 { InDegHolds(cells[1..], b - 1, a); }
  }

  /** What is referred to is there. */
  lemma Referred(cells: seq<Cell>, held: seq<Value>, b: nat, a: nat)
    requires Balanced(cells, held) && b < |cells| && Ref(a) in Kids(cells[b])
    ensures Live(cells, a) && cells[a].rc > 0
  {
    InDegHolds(cells, b, a);
    OccSome(Kids(cells[b]), a);
  }

  lemma Held(cells: seq<Cell>, held: seq<Value>, a: nat)
    requires Balanced(cells, held) && Ref(a) in held
    ensures Live(cells, a) && cells[a].rc > 0
  {
    OccSome(held, a);
  }

  /* -------------------------------------------------------- reachability */

  /** p is a chain of references, each from a live object. */
  predicate Chain(cells: seq<Cell>, p: seq<nat>) {
    |p| > 0 && (forall k | 0 <= k < |p| :: p[k] < |cells|)
    && forall k | 0 < k < |p| :: Ref(p[k]) in Kids(cells[p[k - 1]])
  }

  ghost predicate Reached(cells: seq<Cell>, held: seq<Value>, a: nat) {
    exists p :: Chain(cells, p) && Ref(p[0]) in held && p[|p| - 1] == a
  }

  /** Some objects were freed; the rest keep their kind and contents. */
  predicate Pruned(before: seq<Cell>, after: seq<Cell>) {
    |before| == |after|
    && forall a | 0 <= a < |before| ::
         after[a] == Free || (before[a].Obj? && after[a].kind == before[a].kind && after[a].kids == before[a].kids)
  }

  lemma {:induction false} ChainSurvives(before: seq<Cell>, after: seq<Cell>, held: seq<Value>, p: seq<nat>)
    requires Pruned(before, after) && Balanced(after, held) && Chain(before, p) && Ref(p[0]) in held
    ensures Live(after, p[|p| - 1])
  {
    if |p| == 1 {
      Held(after, held, p[0]);
    } else {
      var q := p[..|p| - 1];
      ChainSurvives(before, after, held, q);
      assert Ref(p[|p| - 1]) in Kids(after[q[|q| - 1]]);
      Referred(after, held, q[|q| - 1], p[|p| - 1]);
    }
  }

  lemma {:induction false} MaxRank(rank: seq<nat>) returns (m: nat)
    ensures forall a | 0 <= a < |rank| :: rank[a] <= m
  {
    if rank == [] {
      m := 0;
    } else {
      m := MaxRank(rank[1..]);
      forall a | 0 < a < |rank| ensures rank[a] <= m { assert rank[1..][a - 1] == rank[a]; }
      if rank[0] > m { m := rank[0]; }
    }
  }

  lemma ReachedFurther(cells: seq<Cell>, held: seq<Value>, b: nat, a: nat)
    requires Reached(cells, held, b) && b < |cells| && a < |cells| && Ref(a) in Kids(cells[b])
    ensures Reached(cells, held, a)
  {
    var p :| Chain(cells, p) && Ref(p[0]) in held && p[|p| - 1] == b;
    var q := p + [a];
    assert q[0] == p[0] && q[|q| - 1] == a;
    assert Chain(cells, q);
  }

  lemma HolderRank(cells: seq<Cell>, rank: seq<nat>, b: nat, a: nat)
    requires Ranked(cells, rank) && b < |cells| && Ref(a) in Kids(cells[b])
    ensures a < |cells| && rank[a] < rank[b]
  {
    var k :| 0 <= k < |cells[b].kids| && cells[b].kids[k] == Ref(a);
    assert rank[cells[b].kids[k].a] < rank[b];
  }

  /** In an acyclic graph an object with a holder is reached from outside. */
  lemma {:induction false} Climb(before: seq<Cell>, after: seq<Cell>, held: seq<Value>, rank: seq<nat>, m: nat, a: nat)
    requires Ranked(before, rank) && Pruned(before, after) && Balanced(after, held) && Positive(after)
    requires |rank| == |before| && (forall b | 0 <= b < |rank| :: rank[b] <= m) && Live(after, a)
    ensures Reached(before, held, a)
    decreases m - rank[a]
  {
    hide Reached, Ranked, Occ, InDeg;
    if Occ(held, a) > 0 {
      OccSome(held, a);
      RootReached(before, held, a);
    } else {
      var b := InDegSome(after, a);
      HolderRank(before, rank, b, a);
      Climb(before, after, held, rank, m, b);
      ReachedFurther(before, held, b, a);
    }
  }

  lemma RootReached(cells: seq<Cell>, held: seq<Value>, a: nat)
    requires Ref(a) in held && a < |cells|
    ensures Reached(cells, held, a)
  {
    assert Chain(cells, [a]);
  }

  /** When objects are freed until the counts are right again and none is zero, the survivors are
   *  exactly what can still be reached. */
  lemma FreedExactly(before: seq<Cell>, after: seq<Cell>, held: seq<Value>, a: nat)
    requires Acyclic(before) && Pruned(before, after) && Balanced(after, held) && Positive(after) && Live(before, a)
    ensures Live(after, a) <==> Reached(before, held, a)
  {
    if Live(after, a) {
      var rank :| Ranked(before, rank);
      var m := MaxRank(rank);
      Climb(before, after, held, rank, m, a);
    }
    if Reached(before, held, a) {
      var p :| Chain(before, p) && Ref(p[0]) in held && p[|p| - 1] == a;
      ChainSurvives(before, after, held, p);
    }
  }

  lemma PrunedRanked(before: seq<Cell>, after: seq<Cell>, held: seq<Value>, rank: seq<nat>)
    requires Ranked(before, rank) && Pruned(before, after) && Balanced(after, held)
    ensures Ranked(after, rank)
  {
    forall a, k | 0 <= a < |after| && after[a].Obj? && 0 <= k < |after[a].kids| && after[a].kids[k].Ref?
      ensures Live(after, after[a].kids[k].a) && rank[after[a].kids[k].a] < rank[a]
    {
      Referred(after, held, a, after[a].kids[k].a);
    }
  }
}
