/** Where a core is laid out, the machine's paths through it are exactly its
 *  runs, and everything the layout refers to is in bounds. */
module RegexLayout {
  import opened RegexTree
  import opened RegexProgram
  import opened RegexCompiler

  /* -------------------------------------------------------- runs are paths */

  lemma StepThen(p: Program, w: Text, a: Conf, b: Conf, z: Conf)
    requires Step(p, w, a, b) && Reach(p, w, b, z)
    ensures Reach(p, w, a, z)
  {
    ReachStep(p, w, a, b);
    ReachTrans(p, w, a, b, z);
  }

  lemma ThenStep(p: Program, w: Text, a: Conf, b: Conf, z: Conf)
    requires Reach(p, w, a, b) && Step(p, w, b, z)
    ensures Reach(p, w, a, z)
  {
    ReachStep(p, w, b, z);
    ReachTrans(p, w, a, b, z);
  }

  /** The machine's own steps in the layout of a choice, and of an option. */
  lemma OrSteps(p: Program, w: Text, k: Core, at: nat, i: nat, c: Caps)
    requires k.Or? && Placed(p.code, k, at)
    ensures Placed(p.code, k.first, at + 1) && Placed(p.code, k.second, at + 2 + Size(k.first))
    ensures Step(p, w, Conf(at, i, c), Conf(at + 1, i, c))
    ensures Step(p, w, Conf(at, i, c), Conf(at + 2 + Size(k.first), i, c))
    ensures Step(p, w, Conf(at + 1 + Size(k.first), i, c), Conf(at + Size(k), i, c))
    ensures Size(k) == 2 + Size(k.first) + Size(k.second)
  {
    UnfoldPlaced(p.code, k, at);
    hide Placed, Size;
  }

  lemma OptSteps(p: Program, w: Text, k: Core, at: nat, i: nat, c: Caps)
    requires k.Opt? && Placed(p.code, k, at)
    ensures Placed(p.code, k.inner, at + 1) && Size(k) == 1 + Size(k.inner)
    ensures Step(p, w, Conf(at, i, c), Conf(at + 1, i, c)) && Step(p, w, Conf(at, i, c), Conf(at + Size(k), i, c))
  {
    UnfoldPlaced(p.code, k, at);
    hide Placed, Size;
  }

  lemma StarSteps(p: Program, w: Text, k: Core, at: nat, i: nat, c: Caps)
    requires k.Star? && Placed(p.code, k, at)
    ensures Placed(p.code, k.inner, at + 1) && Size(k) == 2 + Size(k.inner)
    ensures Step(p, w, Conf(at, i, c), Conf(at + 1, i, c)) && Step(p, w, Conf(at, i, c), Conf(at + Size(k), i, c))
    ensures Step(p, w, Conf(at + 1 + Size(k.inner), i, c), Conf(at, i, c))
  {
    UnfoldPlaced(p.code, k, at);
    hide Placed, Size;
  }

  /** A run of a core, by its parts. */
  lemma RunParts(p: Program, w: Text, k: Core, s: Span)
    requires s in Runs(p, w, k)
    ensures k.Or? ==> s in Runs(p, w, k.first) || s in Runs(p, w, k.second)
    ensures k.Opt? ==> (s.i == s.j && s.c == s.d) || s in Runs(p, w, k.inner)
    ensures k.Star? ==> exists n: nat :: s in Power(Runs(p, w, k.inner), n)
    ensures k.Nil? ==> s.i == s.j && s.c == s.d
    ensures k.Seq? ==> exists m: nat, e: Caps :: Joins(Runs(p, w, k.first), Runs(p, w, k.second), s, m, e)
  {}

  lemma AtomStep(p: Program, w: Text, k: Core, at: nat, s: Span)
    requires k.Atom? && Placed(p.code, k, at) && s in Runs(p, w, k)
    ensures Size(k) == 1 && Step(p, w, Conf(at, s.i, s.c), Conf(at + 1, s.j, s.d))
  {}

  lemma JoinParts(a: Rel, b: Rel, s: Span, m: nat, e: Caps)
    requires Joins(a, b, s, m, e)
    ensures Span(s.i, s.c, m, e) in a && Span(m, e, s.j, s.d) in b
  {}

  lemma {:induction false} RunIsPath(p: Program, w: Text, k: Core, at: nat, s: Span)
    requires Placed(p.code, k, at) && s in Runs(p, w, k)
    ensures Reach(p, w, Conf(at, s.i, s.c), Conf(at + Size(k), s.j, s.d))
    decreases k, 0
  {
    hide *;
    var a0, z := Conf(at, s.i, s.c), Conf(at + Size(k), s.j, s.d);
    RunParts(p, w, k, s);
    UnfoldPlaced(p.code, k, at);
    match k
    case Nil => ReachSelf(p, w, a0);
    case Atom(_) =>
      AtomStep(p, w, k, at, s);
      ReachStep(p, w, a0, z);
    case Seq(a, b) =>
      var m: nat, e: Caps :| Joins(Runs(p, w, a), Runs(p, w, b), s, m, e);
      JoinParts(Runs(p, w, a), Runs(p, w, b), s, m, e);
      RunIsPath(p, w, a, at, Span(s.i, s.c, m, e));
      RunIsPath(p, w, b, at + Size(a), Span(m, e, s.j, s.d));
      ReachTrans(p, w, a0, Conf(at + Size(a), m, e), z);
    case Or(a, b) =>
      OrSteps(p, w, k, at, s.i, s.c);
      OrSteps(p, w, k, at, s.j, s.d);
      if s in Runs(p, w, a) {
        RunIsPath(p, w, a, at + 1, s);
        ThenStep(p, w, Conf(at + 1, s.i, s.c), Conf(at + 1 + Size(a), s.j, s.d), z);
        StepThen(p, w, a0, Conf(at + 1, s.i, s.c), z);
      } else {
        RunIsPath(p, w, b, at + 2 + Size(a), s);
        StepThen(p, w, a0, Conf(at + 2 + Size(a), s.i, s.c), z);
      }
    case Star(a, _) =>
      var n: nat :| s in Power(Runs(p, w, a), n);
      LoopIsPath(p, w, k, at, n, s);
    case Opt(a, _) =>
      OptSteps(p, w, k, at, s.i, s.c);
      if s.i == s.j && s.c == s.d {
        ReachStep(p, w, a0, z);
      } else {
        RunIsPath(p, w, a, at + 1, s);
        StepThen(p, w, a0, Conf(at + 1, s.i, s.c), z);
      }
  }

  lemma {:induction false} LoopIsPath(p: Program, w: Text, k: Core, at: nat, n: nat, s: Span)
    requires k.Star? && Placed(p.code, k, at) && s in Power(Runs(p, w, k.inner), n)
    ensures Reach(p, w, Conf(at, s.i, s.c), Conf(at + Size(k), s.j, s.d))
    decreases k.inner, n + 1
  {
    hide *;
    var a := k.inner;
    var a0, z := Conf(at, s.i, s.c), Conf(at + Size(k), s.j, s.d);
    StarSteps(p, w, k, at, s.i, s.c);
    if n == 0 {
      PowerNone(Runs(p, w, a), s);
      ReachStep(p, w, a0, z);
    } else {
      var m, e := PowerFirst(Runs(p, w, a), n, s);
      LoopIsPath(p, w, k, at, n - 1, Span(m, e, s.j, s.d));
      StarSteps(p, w, k, at, m, e);
      StepThen(p, w, Conf(at + 1 + Size(a), m, e), Conf(at, m, e), z);
      RunIsPath(p, w, a, at + 1, Span(s.i, s.c, m, e));
      ReachTrans(p, w, Conf(at + 1, s.i, s.c), Conf(at + 1 + Size(a), m, e), z);
      StepThen(p, w, a0, Conf(at + 1, s.i, s.c), z);
    }
  }

  lemma PowerNone(a: Rel, s: Span)
    requires s in Power(a, 0)
    ensures s.i == s.j && s.c == s.d
  {}

  lemma PowerFirst(a: Rel, n: nat, s: Span) returns (m: nat, e: Caps)
    requires n > 0 && s in Power(a, n)
    ensures Span(s.i, s.c, m, e) in a && Span(m, e, s.j, s.d) in Power(a, n - 1)
  {
    m, e :| Joins(a, Power(a, n - 1), s, m, e);
  }

  /* -------------------------------------------------------- paths are runs */

  ghost function From(a: Conf, b: Conf): Span { Span(a.at, a.caps, b.at, b.caps) }

  lemma PathStep(p: Program, w: Text, s: seq<Conf>, k: nat)
    requires Path(p, w, s) && k + 1 < |s|
    ensures Step(p, w, s[k], s[k + 1])
  {
  }

  ghost predicate Enters(p: Program, w: Text, k: Core, slots: nat, at: nat, s: seq<Conf>) {
    && CoreWithin(k, |p.sets|, slots) && Placed(p.code, k, at) && Path(p, w, s) && s[0].pc == at
    && !(at <= s[|s| - 1].pc < at + Size(k))
  }

  ghost predicate Crosses(p: Program, w: Text, k: Core, at: nat, s: seq<Conf>, t: nat) {
    t < |s| && s[t].pc == at + Size(k) && From(s[0], s[t]) in Runs(p, w, k)
  }

  /** A path that enters the layout of k at its first instruction and is
   *  somewhere else at its end passes its exit, having made one run of k. */
  lemma {:induction false} PathIsRun(p: Program, w: Text, k: Core, slots: nat, at: nat, s: seq<Conf>) returns (t: nat)
    requires Enters(p, w, k, slots, at, s)
    ensures Crosses(p, w, k, at, s, t)
    decreases k, |s|, 1
  {
    match k
    case Nil => t := 0;
    case Atom(_) =>
      PathStep(p, w, s, 0);
      t := 1;
    case Seq(_, _) => t := PathSeq(p, w, k, slots, at, s);
    case Or(_, _) => t := PathOr(p, w, k, slots, at, s);
    case Star(_, _) => t := PathStar(p, w, k, slots, at, s);
    case Opt(_, _) => t := PathOpt(p, w, k, slots, at, s);
  }

  lemma {:induction false} PathSeq(p: Program, w: Text, k: Core, slots: nat, at: nat, s: seq<Conf>) returns (t: nat)
    requires k.Seq? && Enters(p, w, k, slots, at, s)
    ensures Crosses(p, w, k, at, s, t)
    decreases k, |s|, 0
  {
    var m := PathIsRun(p, w, k.first, slots, at, s);
    var u := PathIsRun(p, w, k.second, slots, at + Size(k.first), s[m..]);
    t := m + u;
    assert s[m..][u] == s[t];
    assert Joins(Runs(p, w, k.first), Runs(p, w, k.second), From(s[0], s[t]), s[m].at, s[m].caps);
  }

  lemma {:induction false} PathOpt(p: Program, w: Text, k: Core, slots: nat, at: nat, s: seq<Conf>) returns (t: nat)
    requires k.Opt? && Enters(p, w, k, slots, at, s)
    ensures Crosses(p, w, k, at, s, t)
    decreases k, |s|, 0
  {
    PathStep(p, w, s, 0);
    t := 1;
    if s[1].pc == at + 1 {
      var u := PathIsRun(p, w, k.inner, slots, at + 1, s[1..]);
      t := 1 + u;
      assert s[1..][u] == s[t];
    }
  }

  lemma {:induction false} PathOr(p: Program, w: Text, k: Core, slots: nat, at: nat, s: seq<Conf>) returns (t: nat)
    requires k.Or? && Enters(p, w, k, slots, at, s)
    ensures Crosses(p, w, k, at, s, t)
    decreases k, |s|, 0
  {
    PathStep(p, w, s, 0);
    if s[1].pc == at + 1 {
      var m := PathIsRun(p, w, k.first, slots, at + 1, s[1..]);
      assert s[1..][m] == s[1 + m];
      PathStep(p, w, s, 1 + m);
      t := 2 + m;
    } else {
      var u := PathIsRun(p, w, k.second, slots, at + 2 + Size(k.first), s[1..]);
      t := 1 + u;
      assert s[1..][u] == s[t];
    }
  }

  lemma {:induction false} PathStar(p: Program, w: Text, k: Core, slots: nat, at: nat, s: seq<Conf>) returns (t: nat)
    requires k.Star? && Enters(p, w, k, slots, at, s)
    ensures Crosses(p, w, k, at, s, t)
    decreases k, |s|, 0
  {
    var a := Runs(p, w, k.inner);
    PathStep(p, w, s, 0);
    if s[1].pc == at + 1 {
      var m := PathIsRun(p, w, k.inner, slots, at + 1, s[1..]);
      assert s[1..][m] == s[1 + m];
      PathStep(p, w, s, 1 + m);
      var u := PathIsRun(p, w, k, slots, at, s[2 + m..]);
      t := 2 + m + u;
      assert s[2 + m..][u] == s[t];
      PowerMore(a, From(s[0], s[1 + m]), From(s[2 + m], s[t]));
    } else {
      t := 1;
      assert From(s[0], s[t]) in Power(a, 0);
    }
  }

  lemma PowerMore(a: Rel, x: Span, y: Span)
    requires x in a && y in Repeated(a, 0, -1) && y.i == x.j && y.c == x.d
    ensures Span(x.i, x.c, y.j, y.d) in Repeated(a, 0, -1)
  {
    var n: nat :| y in Power(a, n);
    assert Joins(a, Power(a, n), Span(x.i, x.c, y.j, y.d), x.j, x.d);
    assert Span(x.i, x.c, y.j, y.d) in Power(a, n + 1);
  }

  /* -------------------------------------------------------- bounds */

  /** An instruction of a program of n instructions, with `sets` character
   *  classes and `slots` capture slots, names nothing outside them. */
  ghost predicate InstWithin(ins: Inst, n: nat, sets: nat, slots: nat, pc: int) {
    match ins.op
    case OpMatch => true
    case OpJmp => 0 <= ins.x < n
    case OpSplit => 0 <= ins.x < n && 0 <= ins.y < n
    case OpSave => 0 <= ins.x < slots && pc + 1 < n
    case OpClass => 0 <= ins.cls < sets && pc + 1 < n
    case _ => pc + 1 < n
  }

  ghost predicate WellFormed(p: Program, slots: nat) {
    |p.code| > 0 &&
    forall pc :: 0 <= pc < |p.code| ==> InstWithin(p.code[pc], |p.code|, |p.sets|, slots, pc)
  }

  ghost predicate CoreWithin(k: Core, sets: nat, slots: nat) {
    match k
    case Nil => true
    case Atom(ins) =>
      !ins.op.OpMatch? && !ins.op.OpJmp? && !ins.op.OpSplit? && InstWithin(ins, 2, sets, slots, 0)
    case Seq(a, b) => CoreWithin(a, sets, slots) && CoreWithin(b, sets, slots)
    case Or(a, b) => CoreWithin(a, sets, slots) && CoreWithin(b, sets, slots)
    case Star(a, _) => CoreWithin(a, sets, slots)
    case Opt(a, _) => CoreWithin(a, sets, slots)
  }

  /** Instruction x of a layout is in bounds, and is no MATCH. */
  lemma {:induction false} PlacedWithin(code: seq<Inst>, k: Core, at: nat, sets: nat, slots: nat, pc: nat)
    requires CoreWithin(k, sets, slots) && Placed(code, k, at) && at + Size(k) < |code|
    requires at <= pc < at + Size(k)
    ensures InstWithin(code[pc], |code|, sets, slots, pc) && !code[pc].op.OpMatch?
    decreases k
  {
    match k
    case Nil =>
    case Atom(_) =>
    case Seq(a, b) =>
      if pc < at + Size(a) {
        PlacedWithin(code, a, at, sets, slots, pc);
      } else {
        PlacedWithin(code, b, at + Size(a), sets, slots, pc);
      }
    case Or(a, b) =>
      if at < pc < at + 1 + Size(a) {
        PlacedWithin(code, a, at + 1, sets, slots, pc);
      } else if pc > at + 1 + Size(a) {
        PlacedWithin(code, b, at + 2 + Size(a), sets, slots, pc);
      }
    case Star(a, _) =>
      if at < pc < at + 1 + Size(a) {
        PlacedWithin(code, a, at + 1, sets, slots, pc);
      }
    case Opt(a, _) =>
      if at < pc {
        PlacedWithin(code, a, at + 1, sets, slots, pc);
      }
  }

  lemma {:induction false} LowerWithin(n: Node, t: nat, sets: nat, groups: nat)
    requires GroupsWithin(n, groups) && t + |SetsOf(n)| <= sets
    ensures CoreWithin(Lower(n, t), sets, 2 * (groups + 1))
    decreases n, 0
  {
    match n
    case Empty(_, _) =>
    case Char(_) =>
    case Any => CharWithin(t, sets, 2 * (groups + 1));
    case Class(s, negated) => if negated { CharWithin(t, sets, 2 * (groups + 1)); }
    case Cat(l, r) =>
      LowerWithin(l, t, sets, groups);
      LowerWithin(r, t + |SetsOf(l)|, sets, groups);
    case Alt(l, r) =>
      LowerWithin(l, t, sets, groups);
      LowerWithin(r, t + |SetsOf(l)|, sets, groups);
    case Rep(b, lo, hi, g) =>
      CopiesWithin(b, lo, t, sets, groups);
      var t' := t + |Repeat(SetsOf(b), lo)|;
      if hi < 0 {
        LowerWithin(b, t', sets, groups);
      } else {
        OptionsWithin(b, hi - lo, g, t', sets, groups);
      }
    case Group(b, _) => LowerWithin(b, t, sets, groups);
  }

  lemma CharWithin(t: nat, sets: nat, slots: nat)
    requires t + 5 <= sets
    ensures CoreWithin(CharCore(t), sets, slots)
  {
    TailWithin(t, 1, sets, slots);
    TailWithin(t, 2, sets, slots);
    TailWithin(t, 3, sets, slots);
    var k2, k3, k4 := Lead(t, 2), Lead(t, 3), Lead(t, 4);
    assert CoreWithin(k2, sets, slots) && CoreWithin(k3, sets, slots) && CoreWithin(k4, sets, slots);
    assert CoreWithin(Or(k3, k4), sets, slots);
    assert CoreWithin(Or(k2, Or(k3, k4)), sets, slots);
  }

  lemma {:induction false} TailWithin(t: nat, n: nat, sets: nat, slots: nat)
    requires n >= 1 && t < sets
    ensures CoreWithin(Tail(t, n), sets, slots)
    decreases n
  {
    if n > 1 {
      TailWithin(t, n - 1, sets, slots);
    }
  }

  lemma {:induction false} CopiesWithin(b: Node, m: int, t: nat, sets: nat, groups: nat)
    requires GroupsWithin(b, groups) && t + |Repeat(SetsOf(b), m)| <= sets
    ensures CoreWithin(Copies(b, m, t), sets, 2 * (groups + 1))
    decreases b, 1, m
  {
    if m > 0 {
      LowerWithin(b, t, sets, groups);
      CopiesWithin(b, m - 1, t + |SetsOf(b)|, sets, groups);
    }
  }

  lemma {:induction false} OptionsWithin(b: Node, m: int, g: bool, t: nat, sets: nat, groups: nat)
    requires GroupsWithin(b, groups) && t + |Repeat(SetsOf(b), m)| <= sets
    ensures CoreWithin(Options(b, m, g, t), sets, 2 * (groups + 1))
    decreases b, 1, m
  {
    if m > 0 {
      LowerWithin(b, t, sets, groups);
      OptionsWithin(b, m - 1, g, t + |SetsOf(b)|, sets, groups);
    }
  }

  /** The pieces of a compiled program: the tree's code between its saves. */
  lemma CompiledPieces(n: Node)
    ensures var code, k := Compiled(n).code, Lower(n, 0);
            && |code| == Size(k) + 3 && Placed(code, k, 1) && code[0] == SaveInst(0)
            && code[1 + Size(k)] == SaveInst(1) && code[2 + Size(k)] == Blank(OpMatch)
  {
    hide Lower, Placed, Size, InstAt, SetsOf;
    var code, k, last := Compiled(n).code, Lower(n, 0), Seq(Atom(SaveInst(1)), Atom(Blank(OpMatch)));
    assert code[0..|code|] == code;
    LayoutIsPlaced(code, Whole(n), 0);
    UnfoldPlaced(code, Whole(n), 0);
    UnfoldPlaced(code, Atom(SaveInst(0)), 0);
    UnfoldPlaced(code, Seq(k, last), 1);
    UnfoldPlaced(code, last, 1 + Size(k));
    UnfoldPlaced(code, Atom(SaveInst(1)), 1 + Size(k));
    UnfoldPlaced(code, Atom(Blank(OpMatch)), 2 + Size(k));
  }

  /** Every jump, class and save index of a compiled tree is in bounds, and its
   *  only MATCH is its last instruction. */
  lemma CompiledIsWellFormed(n: Node, groups: nat)
    requires GroupsWithin(n, groups)
    ensures WellFormed(Compiled(n), 2 * (groups + 1))
    ensures forall pc :: 0 <= pc < |Compiled(n).code| ==>
              (Compiled(n).code[pc].op.OpMatch? <==> pc == |Compiled(n).code| - 1)
  {
    hide Lower, Placed, Size, InstAt, Compiled, CoreWithin;
    var p, k := Compiled(n), Lower(n, 0);
    var slots := 2 * (groups + 1);
    CompiledPieces(n);
    TableFits(n);
    LowerWithin(n, 0, |p.sets|, groups);
    forall pc | 0 <= pc < |p.code|
      ensures InstWithin(p.code[pc], |p.code|, |p.sets|, slots, pc)
      ensures p.code[pc].op.OpMatch? <==> pc == |p.code| - 1
    {
      if 1 <= pc < 1 + Size(k) {
        PlacedWithin(p.code, k, 1, |p.sets|, slots, pc);
      }
    }
  }

  lemma TableFits(n: Node)
    ensures Compiled(n).sets == SetsOf(n) && TableAt(Compiled(n), SetsOf(n), 0)
  {
  }

  /* -------------------------------------------------------- the whole program */

  ghost predicate AcceptsAt(p: Program, w: Text, a: Conf, z: Conf) {
    0 <= z.pc < |p.code| && p.code[z.pc].op.OpMatch? && Reach(p, w, a, z)
  }

  /** The tree matches w from i to z.at, with slots 0 and 1 recording both ends. */
  ghost predicate MatchesTo(n: Node, w: Text, i: nat, c: Caps, j: nat, caps: Caps) {
    exists d: Caps :: Span(i, Put(c, 0, i), j, d) in Denote(n, w) && caps == Put(d, 1, j)
  }

  /** The compiled program started at i accepts at z exactly when the tree
   *  matches from i to z.at with z's captures. */
  lemma AcceptIsMatch(n: Node, groups: nat, w: Text, i: nat, c: Caps, z: Conf)
    requires GroupsWithin(n, groups)
    ensures AcceptsAt(Compiled(n), w, Conf(0, i, c), z) <==>
            z.pc == |Compiled(n).code| - 1 && MatchesTo(n, w, i, c, z.at, z.caps)
  {
    hide Lower, Runs, Denote, TableAt, Compiled, SetsOf;
    var p := Compiled(n);
    CompiledIsWellFormed(n, groups);
    TableFits(n);
    LowerMeaning(p, w, n, 0);
    if z.pc == |p.code| - 1 && MatchesTo(n, w, i, c, z.at, z.caps) {
      MatchIsAccepted(n, w, i, c, z);
    }
    if AcceptsAt(p, w, Conf(0, i, c), z) {
      AcceptedIsMatch(n, groups, w, i, c, z);
    }
  }

  lemma MatchIsAccepted(n: Node, w: Text, i: nat, c: Caps, z: Conf)
    requires z.pc == |Compiled(n).code| - 1 && MatchesTo(n, w, i, c, z.at, z.caps)
    requires Runs(Compiled(n), w, Lower(n, 0)) == Denote(n, w)
    ensures Reach(Compiled(n), w, Conf(0, i, c), z)
  {
    hide Lower, Runs, Denote, Compiled, Placed, Reach;
    var p, k := Compiled(n), Lower(n, 0);
    CompiledPieces(n);
    var d: Caps :| Span(i, Put(c, 0, i), z.at, d) in Denote(n, w) && z.caps == Put(d, 1, z.at);
    RunIsPath(p, w, k, 1, Span(i, Put(c, 0, i), z.at, d));
    StepThen(p, w, Conf(0, i, c), Conf(1, i, Put(c, 0, i)), Conf(1 + Size(k), z.at, d));
    ThenStep(p, w, Conf(0, i, c), Conf(1 + Size(k), z.at, d), z);
  }

  lemma MatchEndsPath(p: Program, w: Text, s: seq<Conf>, t: nat)
    requires Path(p, w, s) && t < |s| && 0 <= s[t].pc < |p.code| && p.code[s[t].pc].op.OpMatch?
    ensures t == |s| - 1
  {
    NoStepFromMatch(p, w, s[t]);
    if t < |s| - 1 {
      PathStep(p, w, s, t);
    }
  }

  lemma NoStepFromMatch(p: Program, w: Text, a: Conf)
    requires 0 <= a.pc < |p.code| && p.code[a.pc].op.OpMatch?
    ensures forall b :: !Step(p, w, a, b)
  {
  }

  /** A core between the saves of group 0 and a final MATCH. */
  ghost predicate Bracketed(p: Program, k: Core, slots: nat) {
    && |p.code| == Size(k) + 3 && CoreWithin(k, |p.sets|, slots) && Placed(p.code, k, 1)
    && p.code[0] == SaveInst(0) && p.code[1 + Size(k)] == SaveInst(1) && p.code[2 + Size(k)] == Blank(OpMatch)
  }

  lemma BracketedPath(p: Program, w: Text, k: Core, slots: nat, i: nat, c: Caps, z: Conf)
    requires Bracketed(p, k, slots) && Reach(p, w, Conf(0, i, c), z) && z.pc == |p.code| - 1
    ensures exists d: Caps :: Span(i, Put(c, 0, i), z.at, d) in Runs(p, w, k) && z.caps == Put(d, 1, z.at)
  {
    var s: seq<Conf> :| Path(p, w, s) && s[0] == Conf(0, i, c) && s[|s| - 1] == z;
    PathStep(p, w, s, 0);
    var t := PathIsRun(p, w, k, slots, 1, s[1..]);
    assert s[1..][t] == s[1 + t];
    PathStep(p, w, s, 1 + t);
    MatchEndsPath(p, w, s, 2 + t);
  }

  lemma CompiledIsBracketed(n: Node, groups: nat)
    requires GroupsWithin(n, groups)
    ensures Bracketed(Compiled(n), Lower(n, 0), 2 * (groups + 1))
  {
    hide Lower, Placed, CoreWithin, Compiled;
    CompiledPieces(n);
    TableFits(n);
    LowerWithin(n, 0, |Compiled(n).sets|, groups);
  }

  lemma AcceptedIsMatch(n: Node, groups: nat, w: Text, i: nat, c: Caps, z: Conf)
    requires GroupsWithin(n, groups)
    requires Reach(Compiled(n), w, Conf(0, i, c), z) && z.pc == |Compiled(n).code| - 1
    requires Runs(Compiled(n), w, Lower(n, 0)) == Denote(n, w)
    ensures MatchesTo(n, w, i, c, z.at, z.caps)
  {
    CompiledIsBracketed(n, groups);
    BracketedPath(Compiled(n), w, Lower(n, 0), 2 * (groups + 1), i, c, z);
  }
}
