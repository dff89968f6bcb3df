/** The emitter of runtime/src/regex.c: it appends instructions, remembers their
 *  indices and patches jump targets once they are known, and gives up when the
 *  program outgrows its limit. */
module RegexEmitter {
  import opened RegexTree
  import opened RegexProgram

  const MAX_PROG: nat := 20000

  class Emitter {
    var prog: seq<Inst>
    var sets: seq<CharSet>
    var overflow: bool

    /** What an emitter without a limit would hold by now. */
    ghost var ideal: seq<Inst>
    ghost var table: seq<CharSet>

    ghost predicate Valid()
      reads this
    {
      if overflow then |prog| == MAX_PROG < |ideal| else |prog| <= MAX_PROG && prog == ideal && sets == table
    }

    constructor ()
      ensures Valid() && ideal == [] && table == [] && !overflow
    {
      prog, sets, overflow, ideal, table := [], [], false, [], [];
    }

    /** Appends a blank instruction; past the limit it hands out the last index. */
    method Emit(op: Op) returns (i: nat, ghost g: nat)
      requires Valid()
      modifies this
      ensures Valid() && i < |prog| && g == old(|ideal|) && (!overflow ==> i == g)
      ensures ideal == old(ideal) + [Blank(op)] && table == old(table)
    {
      g := |ideal|;
      ideal := ideal + [Blank(op)];
      if |prog| >= MAX_PROG {
        overflow := true;
        return |prog| - 1, g;
      }
      prog := prog + [Blank(op)];
      i := |prog| - 1;
    }

    method AddSet(members: set<Byte>, negated: bool) returns (k: nat, ghost g: nat)
      requires Valid()
      modifies this`sets, this`table
      ensures Valid() && g == old(|table|) && (!overflow ==> k == g)
      ensures table == old(table) + [CharSet(members, negated)]
    {
      g := |table|;
      table := table + [CharSet(members, negated)];
      k := |sets|;
      sets := sets + [CharSet(members, negated)];
    }

    /** The four patches; g is the index an unlimited emitter would patch, and
     *  gv the value it would store. */
    method SetX(i: nat, v: int, ghost g: nat, ghost gv: int)
      requires Valid() && i < |prog| && g < |ideal| && (!overflow ==> i == g && v == gv)
      modifies this`prog, this`ideal
      ensures Valid() && |prog| == old(|prog|) && ideal == old(ideal)[g := old(ideal)[g].(x := gv)]
    {
      prog := prog[i := prog[i].(x := v)];
      ideal := ideal[g := ideal[g].(x := gv)];
    }

    method SetY(i: nat, v: int, ghost g: nat, ghost gv: int)
      requires Valid() && i < |prog| && g < |ideal| && (!overflow ==> i == g && v == gv)
      modifies this`prog, this`ideal
      ensures Valid() && |prog| == old(|prog|) && ideal == old(ideal)[g := old(ideal)[g].(y := gv)]
    {
      prog := prog[i := prog[i].(y := v)];
      ideal := ideal[g := ideal[g].(y := gv)];
    }

    /** Appends an instruction with its one operand already known. */
    method EmitInst(ins: Inst, ghost gins: Inst)
      requires Valid() && (!overflow ==> ins == gins)
      modifies this
      ensures Valid() && ideal == old(ideal) + [gins] && table == old(table)
      ensures old(overflow) ==> overflow
    {
      var i, g := Emit(ins.op);
      prog := prog[i := ins];
      ideal := ideal[g := gins];
    }

    /** The code of k now stands at the end, after everything that was there. */
    twostate predicate Extended(k: Core)
      reads this
    {
      old(ideal) <= ideal && |ideal| == |old(ideal)| + Size(k) && Placed(ideal, k, |old(ideal)|)
    }

    /** SPLIT, a class, `conts` continuation bytes, JMP: one branch of a character. */
    method EmitBranch(members: set<Byte>, conts: nat, ci: nat, ghost gci: nat) returns (jmp: nat, ghost g: nat)
      requires Valid() && (!overflow ==> ci == gci)
      modifies this
      ensures Valid() && jmp < |prog| && (!overflow ==> jmp == g)
      ensures g == old(|ideal|) + 2 + conts && table == old(table) + [CharSet(members, false)]
      ensures (old(overflow) ==> overflow) && |ideal| == g + 1
      ensures ideal == old(ideal) + BranchCode(|old(table)|, gci, conts, |old(ideal)|)
    {
      ghost var base, at, t := ideal, |ideal|, |table|;
      var sp, gs := Emit(OpSplit);
      SetX(sp, |prog|, gs, |ideal|);
      var k, gk := AddSet(members, false);
      EmitInst(ClassInst(k), ClassInst(gk));
      assert ideal == base + [SplitInst(at + 1, 0), ClassInst(t)];
      EmitConts(conts, ci, gci);
      jmp, g := Emit(OpJmp);
      assert ideal == base + ([SplitInst(at + 1, 0), ClassInst(t)] + Same(ClassInst(gci), conts) + [JmpInst(0)]);
      SetY(sp, |prog|, gs, |ideal|);
    }

    method EmitConts(conts: nat, ci: nat, ghost gci: nat)
      requires Valid() && (!overflow ==> ci == gci)
      modifies this
      ensures Valid() && table == old(table) && ideal == old(ideal) + Same(ClassInst(gci), conts)
      ensures old(overflow) ==> overflow
    {
      ghost var base := ideal;
      for k := 0 to conts
        invariant Valid() && table == old(table) && ideal == base + Same(ClassInst(gci), k)
        invariant (!overflow ==> ci == gci) && (old(overflow) ==> overflow)
      {
        EmitInst(ClassInst(ci), ClassInst(gci));
        SameGrow(ClassInst(gci), k);
      }
    }

    /** One whole character: four branches chained by SPLIT. */
    method EmitUtf8Class(ascii: set<Byte>)
      requires Valid()
      modifies this
      ensures Valid() && table == old(table) + CharTable(ascii) && Extended(CharCore(|old(table)|))
    {
      hide Size, InstAt, Placed, CharCore, CharCode, BranchCode, Same, Range;
      ghost var base, t, at := ideal, |table|, |ideal|;
      var ci, gci := AddSet(Continuation(), false);
      var j1, h1 := EmitBranch(ascii, 0, ci, gci);
      var j2, h2 := EmitBranch(Lead2(), 1, ci, gci);
      var j3, h3 := EmitBranch(Lead3(), 2, ci, gci);
      var k, gk := AddSet(Lead4(), false);
      EmitInst(ClassInst(k), ClassInst(gk));
      EmitConts(3, ci, gci);
      CharUnpatched(base, t, at);
      assert ideal == base + CharCode(t, at, 0);
      AimJumps(j1, j2, j3, h1, h2, h3);
      CharPatched(base, t, at);
      CharPlaced(base, t);
      assert table == old(table) + CharTable(ascii);
    }

    /** All three branches of a character leave to its end. */
    method AimJumps(j1: nat, j2: nat, j3: nat, ghost h1: nat, ghost h2: nat, ghost h3: nat)
      requires Valid() && j1 < |prog| && j2 < |prog| && j3 < |prog|
      requires h1 < |ideal| && h2 < |ideal| && h3 < |ideal|
      requires !overflow ==> j1 == h1 && j2 == h2 && j3 == h3
      modifies this`prog, this`ideal
      ensures Valid() && |prog| == old(|prog|)
      ensures ideal == Aimed(Aimed(Aimed(old(ideal), h1, |old(ideal)|), h2, |old(ideal)|), h3, |old(ideal)|)
    {
      SetX(j1, |prog|, h1, |ideal|);
      SetX(j2, |prog|, h2, |ideal|);
      SetX(j3, |prog|, h3, |ideal|);
    }

    /** Past the limit the rest of a tree is never emitted; only the ideal goes on. */
    ghost method GiveUp(k: Core, base: seq<Inst>, sets': seq<CharSet>)
      requires Valid() && overflow && |ideal| <= |base| + Size(k)
      modifies this`ideal, this`table
      ensures Valid() && table == sets'
      ensures base <= ideal && |ideal| == |base| + Size(k) && Placed(ideal, k, |base|)
    {
      hide Size, InstAt, Placed;
      ideal, table := base + Layout(k, |base|), sets';
      LayoutIsPlaced(ideal, k, |base|);
    }

    /** The mandatory copies, then a loop (max < 0) or the optional copies. */
    method EmitRep(n: Node)
      requires n.Rep? && Valid() && !overflow
      modifies this
      ensures Valid() && table == old(table) + SetsOf(n) && Extended(Lower(n, |old(table)|))
      decreases n, 1
    {
      hide Size, InstAt, Placed, Lower, SetsOf, Repeat, Copies, Options;
      var body, lo, hi := n.body, n.min, n.max;
      ghost var base, tbl, t, at := ideal, table, |table|, |ideal|;
      ghost var t0 := t + |Repeat(SetsOf(body), lo)|;
      ghost var tail := if hi < 0 then Star(Lower(body, t0), n.greedy) else Options(body, hi - lo, n.greedy, t0);
      UnfoldLower(n, t);
      NoCopies(ideal, body, t, at);
      for i := 0 to lo
        invariant Valid() && !overflow
        invariant table == tbl + Repeat(SetsOf(body), i)
        invariant base <= ideal && |ideal| == at + Size(Copies(body, i, t)) && Placed(ideal, Copies(body, i, t), at)
      {
        ghost var before := ideal;
        EmitNode(body);
        PlacedFrame(before, ideal, Copies(body, i, t), at);
        CopiesGrow(ideal, body, i, t, at);
        RepeatGrow(SetsOf(body), i);
        if overflow {
          CopiesFit(body, i + 1, lo, t);
          UnfoldPlaced([], Lower(n, t), at);
          GiveUp(Lower(n, t), base, tbl + SetsOf(n));
          return;
        }
      }
      ghost var mand := ideal;
      if hi < 0 {
        EmitLoop(body, n.greedy);
        assert table == tbl + (Repeat(SetsOf(body), lo) + SetsOf(body));
      } else {
        EmitOptions(n);
        assert table == tbl + (Repeat(SetsOf(body), lo) + Repeat(SetsOf(body), hi - lo));
      }
      assert SameRange(mand, ideal, at, at + Size(Copies(body, lo, t)));
      PlacedFrame(mand, ideal, Copies(body, lo, t), at);
      UnfoldPlaced(ideal, Lower(n, t), at);
    }

    /** x*: split, body, jump back. */
    method EmitLoop(body: Node, greedy: bool)
      requires Valid() && !overflow
      modifies this
      ensures Valid() && table == old(table) + SetsOf(body) && Extended(Star(Lower(body, |old(table)|), greedy))
      decreases body, 3
    {
      ghost var base, t, at := ideal, |table|, |ideal|;
      hide Size, InstAt, Placed, Lower, SetsOf;
      ghost var k := Lower(body, t);
      var sp, g := Emit(OpSplit);
      var start := |prog|;
      ghost var gstart := |ideal|;
      EmitNode(body);
      ghost var before := ideal;
      var jp, h := Emit(OpJmp);
      SetX(jp, sp, h, g);
      if overflow {
        UnfoldPlaced([], Star(k, greedy), at);
        GiveUp(Star(k, greedy), base, old(table) + SetsOf(body));
        return;
      }
      if greedy {
        SetX(sp, start, g, gstart);
        SetY(sp, |prog|, g, |ideal|);
      } else {
        SetX(sp, |prog|, g, |ideal|);
        SetY(sp, start, g, gstart);
      }
      assert SameRange(before, ideal, at + 1, at + 1 + Size(k));
      PlacedFrame(before, ideal, k, at + 1);
      UnfoldPlaced(ideal, Star(k, greedy), at);
    }

    /** The optional copies of n: every split skips to the end, patched once known. */
    method EmitOptions(n: Node)
      requires n.Rep? && n.max >= 0 && Valid() && !overflow
      modifies this
      ensures Valid() && table == old(table) + Repeat(SetsOf(n.body), n.max - n.min)
      ensures Extended(Options(n.body, n.max - n.min, n.greedy, |old(table)|))
      decreases n, 0
    {
      hide Size, InstAt, Placed, Lower, SetsOf, Repeat, Options, OptPlaced, OptLen;
      var body, greedy, nopt := n.body, n.greedy, n.max - n.min;
      ghost var base, tbl, t, at := ideal, table, |table|, |ideal|;
      NoOptions(ideal, body, nopt, greedy, t, at, 0);
      if nopt <= 0 { return; }
      var splits: seq<nat> := [];
      while |splits| < nopt
        invariant Valid() && !overflow && |splits| <= nopt
        invariant table == tbl + Repeat(SetsOf(body), |splits|)
        invariant base <= ideal && |ideal| == at + OptLen(body, |splits|)
        invariant OptPlaced(ideal, body, |splits|, t, at, 0, greedy)
        invariant forall j :: 0 <= j < |splits| ==> splits[j] == at + OptLen(body, j)
      {
        ghost var i := |splits|;
        ghost var before := ideal;
        var sp, g := Emit(OpSplit);
        splits := splits + [sp];
        var start := |prog|;
        ghost var gstart := |ideal|;
        EmitNode(body);
        ghost var t' := t + |Repeat(SetsOf(body), i)|;
        SizeShift(body, t', 0);
        RepeatGrow(SetsOf(body), i);
        OptLenGrow(body, i);
        if overflow {
          OptFits(body, i + 1, nopt);
          OptionsSize(body, nopt, greedy, t);
          GiveUp(Options(body, nopt, greedy, t), base, tbl + Repeat(SetsOf(body), nopt));
          return;
        }
        ghost var after := ideal;
        if greedy {
          SetX(sp, start, g, gstart);
        } else {
          SetY(sp, start, g, gstart);
        }
        PlacedFrame(after, ideal, Lower(body, t'), at + OptLen(body, i) + 1);
        OptFrame(before, ideal, body, i, t, at, 0, greedy);
        OptGrow(ideal, body, i, t, at, 0, greedy);
      }
      var end := |prog|;
      PatchSkips(body, greedy, splits, end, t, at);
      OptionsPlaced(ideal, body, nopt, greedy, t, at);
    }

    /** Aims every optional copy's split at the end of the repetition. */
    method PatchSkips(body: Node, greedy: bool, splits: seq<nat>, end: nat, ghost t: nat, ghost at: nat)
      requires Valid() && !overflow && |prog| == end == at + OptLen(body, |splits|)
      requires OptPlaced(ideal, body, |splits|, t, at, 0, greedy)
      requires forall j :: 0 <= j < |splits| ==> splits[j] == at + OptLen(body, j)
      modifies this`prog, this`ideal
      ensures Valid() && |ideal| == end && ideal[..at] == old(ideal[..at])
      ensures OptPlaced(ideal, body, |splits|, t, at, end, greedy)
    {
      hide Size, InstAt, Placed, Lower, SetsOf, Repeat, Options, OptPlaced, OptLen;
      NoOptions(ideal, body, 0, greedy, t, at, end);
      for i := 0 to |splits|
        invariant Valid() && |ideal| == end && ideal[..at] == old(ideal[..at])
        invariant OptPlaced(ideal, body, i, t, at, end, greedy)
        invariant OptPlaced(ideal, body, |splits| - i, t + |Repeat(SetsOf(body), i)|, at + OptLen(body, i), 0, greedy)
      {
        ghost var before := ideal;
        ghost var t', at', left := t + |Repeat(SetsOf(body), i)|, at + OptLen(body, i), |splits| - i;
        ghost var at1 := at' + 1 + Size(Lower(body, 0));
        OptLenSplit(body, i, |splits|);
        OptUnfold(ideal, body, left, t', at', 0, greedy);
        RepeatGrow(SetsOf(body), i);
        SizeShift(body, t', 0);
        OptLenGrow(body, i);
        if greedy {
          SetY(splits[i], end, at', end);
        } else {
          SetX(splits[i], end, at', end);
        }
        assert SameRange(before, ideal, at' + 1, at1) && SameRange(before, ideal, at, at');
        PlacedFrame(before, ideal, Lower(body, t'), at' + 1);
        OptFrame(before, ideal, body, i, t, at, end, greedy);
        assert SameRange(before, ideal, at1, at1 + OptLen(body, left - 1));
        OptFrame(before, ideal, body, left - 1, t' + |SetsOf(body)|, at1, 0, greedy);
        assert Holds(ideal, at', Branch(greedy, at' + 1, end));
        OptGrow(ideal, body, i, t, at, end, greedy);
      }
    }

    method EmitNode(n: Node)
      requires Valid()
      modifies this
      ensures Valid() && table == old(table) + SetsOf(n) && Extended(Lower(n, |old(table)|))
      ensures old(overflow) ==> overflow
      decreases n, 2
    {
      hide Size, InstAt, Placed, Lower, SetsOf, CharCore, Range, SameRange;
      ghost var base, tbl, t, at := ideal, table, |table|, |ideal|;
      if overflow {
        GiveUp(Lower(n, t), base, tbl + SetsOf(n));
        return;
      }
      UnfoldLower(n, t);
      match n
      case Empty(bol, eol) =>
        if bol { EmitInst(Blank(OpBol), Blank(OpBol)); }
        if eol { EmitInst(Blank(OpEol), Blank(OpEol)); }
        EmptyPlaced(ideal, bol, eol, t, at);
      case Char(c) =>
        EmitInst(CharInst(c), CharInst(c));
        UnfoldPlaced(ideal, Lower(n, t), at);
      case Any =>
        EmitUtf8Class(DotAscii());
      case Class(s, negated) =>
        if negated {
          EmitUtf8Class(NegatedAscii(s));
        } else {
          var k, gk := AddSet(s, false);
          EmitInst(ClassInst(k), ClassInst(gk));
          UnfoldPlaced(ideal, Cls(t), at);
        }
      case Cat(l, r) =>
        EmitCat(l, r);
      case Alt(l, r) =>
        EmitAlt(l, r);
      case Rep(_, _, _, _) =>
        EmitRep(n);
      case Group(b, g) =>
        if g < 0 {
          EmitNode(b);
        } else {
          EmitGroup(b, g);
        }
    }

    method EmitCat(l: Node, r: Node)
      requires Valid()
      modifies this
      ensures Valid() && table == old(table) + SetsOf(Cat(l, r)) && Extended(Lower(Cat(l, r), |old(table)|))
      decreases Cat(l, r), 1
    {
      hide Size, InstAt, Placed, Lower, SetsOf, SameRange;
      ghost var t, at := |table|, |ideal|;
      UnfoldLower(Cat(l, r), t);
      EmitNode(l);
      ghost var before := ideal;
      EmitNode(r);
      PrefixRange(before, ideal, at, at + Size(Lower(l, t)));
      PlacedFrame(before, ideal, Lower(l, t), at);
      UnfoldPlaced(ideal, Lower(Cat(l, r), t), at);
      assert table == old(table) + (SetsOf(l) + SetsOf(r));
    }

    method EmitGroup(b: Node, g: nat)
      requires Valid()
      modifies this
      ensures Valid() && table == old(table) + SetsOf(b) && Extended(Lower(Group(b, g), |old(table)|))
      decreases Group(b, g), 1
    {
      hide Size, InstAt, Placed, Lower, SetsOf, SameRange;
      ghost var t, at := |table|, |ideal|;
      UnfoldLower(Group(b, g), t);
      EmitInst(SaveInst(2 * g), SaveInst(2 * g));
      EmitNode(b);
      ghost var before := ideal;
      EmitInst(SaveInst(2 * g + 1), SaveInst(2 * g + 1));
      PrefixRange(before, ideal, at + 1, |before|);
      PlacedFrame(before, ideal, Lower(b, t), at + 1);
      UnfoldPlaced(ideal, Atom(SaveInst(2 * g)), at);
      UnfoldPlaced(ideal, Atom(SaveInst(2 * g + 1)), |before|);
      UnfoldPlaced(ideal, Seq(Lower(b, t), Atom(SaveInst(2 * g + 1))), at + 1);
      UnfoldPlaced(ideal, Lower(Group(b, g), t), at);
    }

    method EmitAlt(l: Node, r: Node)
      requires Valid()
      modifies this
      ensures Valid() && table == old(table) + SetsOf(Alt(l, r)) && Extended(Lower(Alt(l, r), |old(table)|))
      decreases Alt(l, r), 1
    {
      hide Size, InstAt, Placed, Lower, SetsOf;
      ghost var t, at := |table|, |ideal|;
      UnfoldLower(Alt(l, r), t);
      ghost var a, b := Lower(l, t), Lower(r, t + |SetsOf(l)|);
      var sp, g := EmitFirst(l);
      ghost var left := ideal;
      EmitSecond(r, sp, g);
      AltPlaced(left, ideal[|left| := Blank(OpJmp)], ideal, a, b, at);
      assert table == old(table) + (SetsOf(l) + SetsOf(r));
    }

    /** SPLIT and the first alternative. */
    method EmitFirst(l: Node) returns (sp: nat, ghost g: nat)
      requires Valid()
      modifies this
      ensures Valid() && sp < |prog| && (!overflow ==> sp == g) && (old(overflow) ==> overflow)
      ensures g == |old(ideal)| < |ideal| && old(ideal) + [SplitInst(g + 1, 0)] <= ideal
      ensures table == old(table) + SetsOf(l)
      ensures |ideal| == g + 1 + Size(Lower(l, |old(table)|)) && Placed(ideal, Lower(l, |old(table)|), g + 1)
      decreases l, 3
    {
      hide Size, InstAt, Placed, Lower, SetsOf;
      sp, g := Emit(OpSplit);
      SetX(sp, |prog|, g, |ideal|);
      EmitNode(l);
    }

    /** JMP and the second alternative, and the two patched. */
    method EmitSecond(r: Node, sp: nat, ghost g: nat)
      requires Valid() && sp < |prog| && g < |ideal| && (!overflow ==> sp == g) && ideal[g] == SplitInst(g + 1, 0)
      modifies this
      ensures Valid() && table == old(table) + SetsOf(r) && |old(ideal)| < |ideal|
      ensures |ideal| == |old(ideal)| + 1 + Size(Lower(r, |old(table)|))
      ensures forall i :: 0 <= i < |old(ideal)| && i != g ==> ideal[i] == old(ideal)[i]
      ensures ideal[g] == SplitInst(g + 1, |old(ideal)| + 1) && ideal[|old(ideal)|] == JmpInst(|ideal|)
      ensures Placed(ideal[|old(ideal)| := Blank(OpJmp)], Lower(r, |old(table)|), |old(ideal)| + 1)
      decreases r, 3
    {
      hide Size, InstAt, Placed, Lower, SetsOf;
      var jp, h := Emit(OpJmp);
      SetY(sp, |prog|, g, |ideal|);
      EmitNode(r);
      ghost var right := ideal;
      assert right[h] == Blank(OpJmp);
      SetX(jp, |prog|, h, |ideal|);
      assert ideal[h := Blank(OpJmp)] == right;
    }
  }

  /** Compiling succeeds exactly when the program fits the limit, and then
   *  yields the layout of the tree. */
  method Compile(n: Node) returns (ok: bool, p: Program)
    ensures ok <==> |Compiled(n).code| <= MAX_PROG
    ensures ok ==> p == Compiled(n)
  {
    var e := new Emitter();
    e.EmitInst(SaveInst(0), SaveInst(0));
    e.EmitNode(n);
    ghost var before := e.ideal;
    e.EmitInst(SaveInst(1), SaveInst(1));
    e.EmitInst(Blank(OpMatch), Blank(OpMatch));
    PlacedFrame(before, e.ideal, Lower(n, 0), 1);
    WholeCode(n, e.ideal);
    ok := !e.overflow;
    p := Program(e.prog, e.sets);
  }

  lemma WholeCode(n: Node, code: seq<Inst>)
    requires |code| == Size(Lower(n, 0)) + 3 && Placed(code, Lower(n, 0), 1)
    requires code[0] == SaveInst(0) && code[|code| - 2] == SaveInst(1) && code[|code| - 1] == Blank(OpMatch)
    ensures code == Compiled(n).code
  {
    hide Lower, Placed, Size, InstAt;
    var k, last := Lower(n, 0), Seq(Atom(SaveInst(1)), Atom(Blank(OpMatch)));
    UnfoldPlaced(code, Atom(SaveInst(0)), 0);
    UnfoldPlaced(code, Atom(SaveInst(1)), 1 + Size(k));
    UnfoldPlaced(code, Atom(Blank(OpMatch)), 2 + Size(k));
    UnfoldPlaced(code, last, 1 + Size(k));
    UnfoldPlaced(code, Seq(k, last), 1);
    UnfoldPlaced(code, Whole(n), 0);
    forall i: nat | i < |code| ensures code[i] == Compiled(n).code[i] {
      PlacedInst(code, Whole(n), 0, i);
    }
  }

  /* -------------------------------------------------------- the layout pieces */

  function Same(i: Inst, n: nat): (r: seq<Inst>)
    ensures |r| == n
  {
    if n == 0 then [] else [i] + Same(i, n - 1)
  }

  lemma {:induction false} SameGrow(i: Inst, n: nat)
    ensures Same(i, n + 1) == Same(i, n) + [i]
    decreases n
  {
    if n > 0 {
      SameGrow(i, n - 1);
    }
  }

  /** One branch before its JMP is patched. */
  function BranchCode(cls: nat, cont: nat, conts: nat, at: nat): seq<Inst> {
    [SplitInst(at + 1, at + 3 + conts), ClassInst(cls)] + Same(ClassInst(cont), conts) + [JmpInst(0)]
  }

  /** The character machine with its three jumps aimed at `end`. */
  function CharCode(t: nat, at: nat, end: int): (r: seq<Inst>)
    ensures |r| == 16
  {
    [SplitInst(at + 1, at + 3), ClassInst(t + 1), JmpInst(end),
     SplitInst(at + 4, at + 7), ClassInst(t + 2), ClassInst(t), JmpInst(end),
     SplitInst(at + 8, at + 12), ClassInst(t + 3), ClassInst(t), ClassInst(t), JmpInst(end),
     ClassInst(t + 4), ClassInst(t), ClassInst(t), ClassInst(t)]
  }

  lemma CharUnpatched(base: seq<Inst>, t: nat, at: nat)
    ensures base + BranchCode(t + 1, t, 0, at) + BranchCode(t + 2, t, 1, at + 3) + BranchCode(t + 3, t, 2, at + 7) +
            [ClassInst(t + 4)] + Same(ClassInst(t), 3) == base + CharCode(t, at, 0)
  {
    assert Same(ClassInst(t), 1) == [ClassInst(t)];
    assert Same(ClassInst(t), 2) == [ClassInst(t), ClassInst(t)];
    assert Same(ClassInst(t), 3) == [ClassInst(t), ClassInst(t), ClassInst(t)];
    var b1, b2, b3 := BranchCode(t + 1, t, 0, at), BranchCode(t + 2, t, 1, at + 3), BranchCode(t + 3, t, 2, at + 7);
    assert b1 == CharCode(t, at, 0)[..3] && b2 == CharCode(t, at, 0)[3..7] && b3 == CharCode(t, at, 0)[7..12];
    assert [ClassInst(t + 4)] + Same(ClassInst(t), 3) == CharCode(t, at, 0)[12..];
    assert b1 + b2 + b3 + ([ClassInst(t + 4)] + Same(ClassInst(t), 3)) == CharCode(t, at, 0);
  }

  function Aimed(code: seq<Inst>, i: nat, target: int): (r: seq<Inst>)
    requires i < |code|
    ensures |r| == |code|
  {
    code[i := code[i].(x := target)]
  }

  lemma CharPatched(base: seq<Inst>, t: nat, at: nat)
    requires |base| == at
    ensures Aimed(Aimed(Aimed(base + CharCode(t, at, 0), at + 2, at + 16), at + 6, at + 16), at + 11, at + 16)
            == base + CharCode(t, at, at + 16)
  {
  }

  lemma {:induction false} TailPlaced(code: seq<Inst>, t: nat, n: nat, at: nat)
    requires 1 <= n && forall i :: at <= i < at + n ==> Holds(code, i, ClassInst(t))
    ensures Placed(code, Tail(t, n), at) && Size(Tail(t, n)) == n
    decreases n
  {
    UnfoldPlaced(code, Cls(t), at);
    if n > 1 {
      TailPlaced(code, t, n - 1, at + 1);
      UnfoldPlaced(code, Tail(t, n), at);
    }
  }

  lemma LeadPlaced(code: seq<Inst>, t: nat, n: nat, at: nat)
    requires 2 <= n <= 4 && Holds(code, at, ClassInst(t + n))
    requires forall i :: at < i < at + n ==> Holds(code, i, ClassInst(t))
    ensures Placed(code, Lead(t, n), at) && Size(Lead(t, n)) == n
  {
    TailPlaced(code, t, n - 1, at + 1);
    UnfoldPlaced(code, Cls(t + n), at);
    UnfoldPlaced(code, Lead(t, n), at);
  }

  lemma CharHolds(base: seq<Inst>, t: nat, code: seq<Inst>)
    requires code == base + CharCode(t, |base|, |base| + 16)
    ensures var at := |base|;
            && Holds(code, at, SplitInst(at + 1, at + 3)) && Holds(code, at + 1, ClassInst(t + 1))
            && Holds(code, at + 2, JmpInst(at + 16)) && Holds(code, at + 3, SplitInst(at + 4, at + 7))
            && Holds(code, at + 4, ClassInst(t + 2)) && Holds(code, at + 6, JmpInst(at + 16))
            && Holds(code, at + 7, SplitInst(at + 8, at + 12)) && Holds(code, at + 8, ClassInst(t + 3))
            && Holds(code, at + 11, JmpInst(at + 16)) && Holds(code, at + 12, ClassInst(t + 4))
    ensures forall i :: |base| + 4 < i < |base| + 6 ==> Holds(code, i, ClassInst(t))
    ensures forall i :: |base| + 8 < i < |base| + 11 ==> Holds(code, i, ClassInst(t))
    ensures forall i :: |base| + 12 < i < |base| + 16 ==> Holds(code, i, ClassInst(t))
  {
    var c := CharCode(t, |base|, |base| + 16);
    assert forall i :: |base| <= i < |base| + 16 ==> code[i] == c[i - |base|];
  }

  lemma CharPlaced(base: seq<Inst>, t: nat)
    ensures Placed(base + CharCode(t, |base|, |base| + 16), CharCore(t), |base|) && Size(CharCore(t)) == 16
  {
    hide CharCode, Placed, Size, Lead;
    var at := |base|;
    var code := base + CharCode(t, at, at + 16);
    CharHolds(base, t, code);
    LeadPlaced(code, t, 2, at + 4);
    LeadPlaced(code, t, 3, at + 8);
    LeadPlaced(code, t, 4, at + 12);
    BranchesPlaced(code, t, Lead(t, 2), Lead(t, 3), Lead(t, 4), at);
  }

  lemma BranchesPlaced(code: seq<Inst>, t: nat, k2: Core, k3: Core, k4: Core, at: nat)
    requires Size(k2) == 2 && Size(k3) == 3 && Size(k4) == 4
    requires Placed(code, k2, at + 4) && Placed(code, k3, at + 8) && Placed(code, k4, at + 12)
    requires Holds(code, at, SplitInst(at + 1, at + 3)) && Holds(code, at + 1, ClassInst(t + 1))
    requires Holds(code, at + 2, JmpInst(at + 16)) && Holds(code, at + 3, SplitInst(at + 4, at + 7))
    requires Holds(code, at + 6, JmpInst(at + 16)) && Holds(code, at + 7, SplitInst(at + 8, at + 12))
    requires Holds(code, at + 11, JmpInst(at + 16))
    ensures var k := Or(Cls(t + 1), Or(k2, Or(k3, k4))); Placed(code, k, at) && Size(k) == 16
  {
    hide Placed, Size;
    UnfoldPlaced(code, Or(k3, k4), at + 7);
    UnfoldPlaced(code, Or(k2, Or(k3, k4)), at + 3);
    UnfoldPlaced(code, Cls(t + 1), at + 1);
    UnfoldPlaced(code, Or(Cls(t + 1), Or(k2, Or(k3, k4))), at);
  }

  lemma {:induction false} RepeatGrow<T>(s: seq<T>, k: nat)
    ensures Repeat(s, k + 1) == Repeat(s, k) + s
    decreases k
  {
    if k > 0 {
      RepeatGrow(s, k - 1);
      assert Repeat(s, k + 1) == s + (Repeat(s, k - 1) + s);
    }
  }

  /** An alternation once its second branch is out and its JMP patched. */
  lemma AltPlaced(left: seq<Inst>, right: seq<Inst>, code: seq<Inst>, a: Core, b: Core, at: nat)
    requires |left| == at + 1 + Size(a) && Placed(left, a, at + 1)
    requires |right| == |left| + 1 + Size(b) && Placed(right, b, |left| + 1)
    requires forall i :: at < i < |left| ==> right[i] == left[i]
    requires right[at] == SplitInst(at + 1, |left| + 1)
    requires code == right[|left| := JmpInst(|right|)]
    ensures Placed(code, Or(a, b), at) && Size(Or(a, b)) == |code| - at
  {
    hide Placed, Size;
    UnfoldPlaced(code, Or(a, b), at);
    assert SameRange(left, code, at + 1, at + 1 + Size(a));
    assert SameRange(right, code, |left| + 1, |left| + 1 + Size(b));
    assert Holds(code, at, SplitInst(at + 1, |left| + 1)) && Holds(code, |left|, JmpInst(|right|));
    hide SameRange, Holds;
    PlacedFrame(left, code, a, at + 1);
    PlacedFrame(right, code, b, |left| + 1);
  }

  lemma PrefixRange(c: seq<Inst>, d: seq<Inst>, lo: nat, hi: nat)
    requires c <= d && hi <= |c|
    ensures SameRange(c, d, lo, hi)
  {
  }

  lemma EmptyPlaced(code: seq<Inst>, bol: bool, eol: bool, t: nat, at: nat)
    requires bol ==> Holds(code, at, Blank(OpBol))
    requires eol ==> Holds(code, if bol then at + 1 else at, Blank(OpEol))
    ensures Placed(code, Lower(Empty(bol, eol), t), at) && SetsOf(Empty(bol, eol)) == []
    ensures Size(Lower(Empty(bol, eol), t)) == (if bol then 1 else 0) + (if eol then 1 else 0)
  {
  }

  lemma NoCopies(code: seq<Inst>, b: Node, t: nat, at: nat)
    ensures Repeat(SetsOf(b), 0) == [] && Size(Copies(b, 0, t)) == 0 && Placed(code, Copies(b, 0, t), at)
  {
  }

  lemma CopiesUnfold(b: Node, m: nat, t: nat)
    requires m > 0
    ensures Copies(b, m, t) == Seq(Lower(b, t), Copies(b, m - 1, t + |SetsOf(b)|))
    ensures Repeat(SetsOf(b), m) == SetsOf(b) + Repeat(SetsOf(b), m - 1)
  {
  }

  /** Growing the mandatory copies by one at the far end. */
  lemma {:induction false} CopiesGrow(code: seq<Inst>, b: Node, m: nat, t: nat, at: nat)
    requires Placed(code, Copies(b, m, t), at)
    requires Placed(code, Lower(b, t + |Repeat(SetsOf(b), m)|), at + Size(Copies(b, m, t)))
    ensures Placed(code, Copies(b, m + 1, t), at)
    ensures Size(Copies(b, m + 1, t)) ==
            Size(Copies(b, m, t)) + Size(Lower(b, t + |Repeat(SetsOf(b), m)|))
    decreases m
  {
    hide Placed, Size, Lower, SetsOf, Repeat, Copies;
    CopiesUnfold(b, m + 1, t);
    var k, rest := Lower(b, t), Copies(b, m, t + |SetsOf(b)|);
    UnfoldPlaced(code, Seq(k, rest), at);
    if m == 0 {
      NoCopies(code, b, t + |SetsOf(b)|, at + Size(k));
      NoCopies(code, b, t, at);
    } else {
      CopiesUnfold(b, m, t);
      var t', at' := t + |SetsOf(b)|, at + Size(k);
      UnfoldPlaced(code, Copies(b, m, t), at);
      assert t + |Repeat(SetsOf(b), m)| == t' + |Repeat(SetsOf(b), m - 1)|;
      assert at + Size(Copies(b, m, t)) == at' + Size(Copies(b, m - 1, t'));
      CopiesGrow(code, b, m - 1, t', at');
    }
  }

  lemma {:induction false} CopiesFit(b: Node, m: nat, k: nat, t: nat)
    requires m <= k
    ensures Size(Copies(b, m, t)) <= Size(Copies(b, k, t))
    decreases m
  {
    hide Lower, SetsOf;
    if m > 0 {
      CopiesFit(b, m - 1, k - 1, t + |SetsOf(b)|);
    }
  }

  /** The size of a tree's code does not depend on where its classes go. */
  lemma {:induction false} SizeShift(n: Node, t: nat, u: nat)
    ensures Size(Lower(n, t)) == Size(Lower(n, u))
    decreases n, 0
  {
    hide SetsOf, Repeat, Lower, Copies, Options, CharCore;
    UnfoldLower(n, t);
    UnfoldLower(n, u);
    match n
    case Empty(bol, eol) =>
      EmptySize(bol, eol, t);
      EmptySize(bol, eol, u);
    case Char(_) =>
    case Any => CharSize(t); CharSize(u);
    case Class(_, _) => CharSize(t); CharSize(u);
    case Cat(l, r) =>
      SizeShift(l, t, u);
      SizeShift(r, t + |SetsOf(l)|, u + |SetsOf(l)|);
    case Alt(l, r) =>
      SizeShift(l, t, u);
      SizeShift(r, t + |SetsOf(l)|, u + |SetsOf(l)|);
    case Rep(b, lo, hi, g) =>
      var r := |Repeat(SetsOf(b), lo)|;
      CopiesShift(b, lo, t, u);
      SizeShift(b, t + r, u + r);
      OptionsShift(b, hi - lo, g, t + r, u + r);
    case Group(b, _) => SizeShift(b, t, u);
  }

  lemma EmptySize(bol: bool, eol: bool, t: nat)
    ensures Size(Lower(Empty(bol, eol), t)) == (if bol then 1 else 0) + (if eol then 1 else 0)
  {
  }

  lemma CharSize(t: nat)
    ensures Size(CharCore(t)) == 16
  {
    CharPlaced([], t);
  }

  lemma {:induction false} CopiesShift(b: Node, m: int, t: nat, u: nat)
    ensures Size(Copies(b, m, t)) == Size(Copies(b, m, u))
    decreases b, 1, m
  {
    hide Lower, SetsOf;
    if m > 0 {
      SizeShift(b, t, u);
      CopiesShift(b, m - 1, t + |SetsOf(b)|, u + |SetsOf(b)|);
    }
  }

  lemma {:induction false} OptionsShift(b: Node, m: int, g: bool, t: nat, u: nat)
    ensures Size(Options(b, m, g, t)) == Size(Options(b, m, g, u))
    decreases b, 1, m
  {
    hide Lower, SetsOf;
    if m > 0 {
      SizeShift(b, t, u);
      OptionsShift(b, m - 1, g, t + |SetsOf(b)|, u + |SetsOf(b)|);
    }
  }

  function OptLen(b: Node, m: int): nat
    decreases m
  {
    if m <= 0 then 0 else 1 + Size(Lower(b, 0)) + OptLen(b, m - 1)
  }

  lemma OptLenGrow(b: Node, m: nat)
    ensures OptLen(b, m + 1) == OptLen(b, m) + 1 + Size(Lower(b, 0))
  {
    hide Lower, Size;
  }

  lemma {:induction false} OptFits(b: Node, m: nat, k: nat)
    requires m <= k
    ensures OptLen(b, m) <= OptLen(b, k)
    decreases m
  {
    hide Lower, Size;
    if m > 0 {
      OptFits(b, m - 1, k - 1);
    }
  }

  /** m optional copies that all skip to instruction `skip`. */
  ghost predicate OptPlaced(code: seq<Inst>, b: Node, m: int, t: nat, at: nat, skip: int, greedy: bool)
    decreases m
  {
    m <= 0 ||
    (&& Holds(code, at, Branch(greedy, at + 1, skip)) && Placed(code, Lower(b, t), at + 1)
     && OptPlaced(code, b, m - 1, t + |SetsOf(b)|, at + 1 + Size(Lower(b, 0)), skip, greedy))
  }

  lemma NoOptions(code: seq<Inst>, b: Node, m: int, g: bool, t: nat, at: nat, skip: int)
    ensures OptLen(b, 0) == 0 && Repeat(SetsOf(b), 0) == []
    ensures OptPlaced(code, b, 0, t, at, skip, g)
    ensures m <= 0 ==> Placed(code, Options(b, m, g, t), at) && Size(Options(b, m, g, t)) == 0
    ensures m <= 0 ==> Repeat(SetsOf(b), m) == []
  {
  }

  lemma OptUnfold(code: seq<Inst>, b: Node, m: int, t: nat, at: nat, skip: int, greedy: bool)
    requires m > 0 && OptPlaced(code, b, m, t, at, skip, greedy)
    ensures Holds(code, at, Branch(greedy, at + 1, skip)) && Placed(code, Lower(b, t), at + 1)
    ensures OptPlaced(code, b, m - 1, t + |SetsOf(b)|, at + 1 + Size(Lower(b, 0)), skip, greedy)
    ensures OptLen(b, m) == 1 + Size(Lower(b, 0)) + OptLen(b, m - 1)
  {
    hide Lower, Size, Placed, SetsOf;
  }

  /** The rest of a run of options fits between its start and the end. */
  lemma {:induction false} OptLenSplit(b: Node, i: nat, m: nat)
    requires i <= m
    ensures OptLen(b, m) == OptLen(b, i) + OptLen(b, m - i)
    decreases i
  {
    hide Lower, Size;
    if i > 0 {
      OptLenSplit(b, i - 1, m - 1);
    }
  }

  lemma {:induction false} OptFrame(code: seq<Inst>, code': seq<Inst>, b: Node, m: nat, t: nat, at: nat, skip: int,
                                    greedy: bool)
    requires OptPlaced(code, b, m, t, at, skip, greedy) && SameRange(code, code', at, at + OptLen(b, m))
    ensures OptPlaced(code', b, m, t, at, skip, greedy)
    decreases m
  {
    hide Lower, Size, Placed, SetsOf;
    if m > 0 {
      SizeShift(b, t, 0);
      PlacedFrame(code, code', Lower(b, t), at + 1);
      OptFrame(code, code', b, m - 1, t + |SetsOf(b)|, at + 1 + Size(Lower(b, 0)), skip, greedy);
    }
  }

  lemma {:induction false} OptGrow(code: seq<Inst>, b: Node, m: nat, t: nat, at: nat, skip: int, greedy: bool)
    requires OptPlaced(code, b, m, t, at, skip, greedy)
    requires Holds(code, at + OptLen(b, m), Branch(greedy, at + OptLen(b, m) + 1, skip))
    requires Placed(code, Lower(b, t + |Repeat(SetsOf(b), m)|), at + OptLen(b, m) + 1)
    ensures OptPlaced(code, b, m + 1, t, at, skip, greedy)
    decreases m
  {
    hide Lower, Size, Placed, SetsOf;
    if m > 0 {
      var t', at' := t + |SetsOf(b)|, at + 1 + Size(Lower(b, 0));
      assert t + |Repeat(SetsOf(b), m)| == t' + |Repeat(SetsOf(b), m - 1)|;
      assert at + OptLen(b, m) == at' + OptLen(b, m - 1);
      OptGrow(code, b, m - 1, t', at', skip, greedy);
    }
  }

  lemma {:induction false} OptionsSize(b: Node, m: int, g: bool, t: nat)
    ensures Size(Options(b, m, g, t)) == OptLen(b, m)
    decreases m
  {
    hide Lower, SetsOf;
    if m > 0 {
      SizeShift(b, t, 0);
      OptionsSize(b, m - 1, g, t + |SetsOf(b)|);
    }
  }

  lemma {:induction false} OptionsPlaced(code: seq<Inst>, b: Node, m: nat, g: bool, t: nat, at: nat)
    requires OptPlaced(code, b, m, t, at, at + OptLen(b, m), g)
    ensures Placed(code, Options(b, m, g, t), at) && Size(Options(b, m, g, t)) == OptLen(b, m)
    decreases m
  {
    hide Lower, SetsOf, Size, Placed;
    NoOptions(code, b, m, g, t, at, at);
    if m > 0 {
      var k, rest := Lower(b, t), Options(b, m - 1, g, t + |SetsOf(b)|);
      SizeShift(b, t, 0);
      OptionsSize(b, m, g, t);
      assert Options(b, m, g, t) == Opt(Seq(k, rest), g);
      OptionsPlaced(code, b, m - 1, g, t + |SetsOf(b)|, at + 1 + Size(k));
      UnfoldPlaced(code, Opt(Seq(k, rest), g), at);
      UnfoldPlaced(code, Seq(k, rest), at + 1);
    }
  }
}
