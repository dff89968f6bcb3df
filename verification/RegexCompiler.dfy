/** Lowering and laying out a tree keeps its meaning: every match of the tree is
 *  a run of its program and every run of the program is a match of the tree. */
module RegexCompiler {
  import opened RegexTree
  import opened RegexProgram

  /* -------------------------------------------------------- meaning of a core */

  ghost function AtomRuns(p: Program, w: Text, ins: Inst): Rel {
    match ins.op
    case OpSave => Mark(ins.x)
    case OpBol => Anchored(true, false, w)
    case OpEol => Anchored(false, true, w)
    case OpJmp => iset{}
    case OpSplit => iset{}
    case _ => iset s: Span | Consumes(p, ins, w, s.i) && s.j == s.i + 1 && s.c == s.d
  }

  ghost function Runs(p: Program, w: Text, k: Core): Rel {
    match k
    case Nil => Id()
    case Atom(ins) => AtomRuns(p, w, ins)
    case Seq(a, b) => Then(Runs(p, w, a), Runs(p, w, b))
    case Or(a, b) => Runs(p, w, a) + Runs(p, w, b)
    case Star(a, _) => Repeated(Runs(p, w, a), 0, -1)
    case Opt(a, _) => Id() + Runs(p, w, a)
  }

  /* -------------------------------------------------------- algebra of matching */

  lemma ThenAssoc(a: Rel, b: Rel, c: Rel)
    ensures Then(Then(a, b), c) == Then(a, Then(b, c))
  {
    forall s: Span ensures s in Then(Then(a, b), c) <==> s in Then(a, Then(b, c)) {
      if s in Then(Then(a, b), c) {
        var n: nat, f: Caps :| Joins(Then(a, b), c, s, n, f);
        var m: nat, e: Caps :| Joins(a, b, Span(s.i, s.c, n, f), m, e);
        assert Joins(b, c, Span(m, e, s.j, s.d), n, f);
        assert Joins(a, Then(b, c), s, m, e);
      }
      if s in Then(a, Then(b, c)) {
        var m: nat, e: Caps :| Joins(a, Then(b, c), s, m, e);
        var n: nat, f: Caps :| Joins(b, c, Span(m, e, s.j, s.d), n, f);
        assert Joins(a, b, Span(s.i, s.c, n, f), m, e);
        assert Joins(Then(a, b), c, s, n, f);
      }
    }
  }

  lemma ThenId(a: Rel)
    ensures Then(Id(), a) == a && Then(a, Id()) == a
  {
    forall s: Span ensures (s in Then(Id(), a) <==> s in a) && (s in Then(a, Id()) <==> s in a) {
      if s in a {
        assert Joins(Id(), a, s, s.i, s.c);
        assert Joins(a, Id(), s, s.j, s.d);
      }
    }
  }

  lemma {:induction false} PowerAdd(a: Rel, k: nat, l: nat)
    ensures Then(Power(a, k), Power(a, l)) == Power(a, k + l)
    decreases k
  {
    if k == 0 {
      ThenId(Power(a, l));
    } else {
      PowerAdd(a, k - 1, l);
      ThenAssoc(a, Power(a, k - 1), Power(a, l));
    }
  }

  /** lo mandatory repetitions followed by a choice of more. */
  lemma RepeatedSplit(a: Rel, lo: nat, hi: int)
    ensures Repeated(a, lo, hi)
         == Then(Power(a, lo), Repeated(a, 0, if hi < 0 then -1 else if hi > lo then hi - lo else 0))
  {
    var more := if hi < 0 then -1 else if hi > lo then hi - lo else 0;
    forall s: Span ensures s in Repeated(a, lo, hi) <==> s in Then(Power(a, lo), Repeated(a, 0, more)) {
      if s in Repeated(a, lo, hi) {
        var k: nat :| lo <= k && (hi < 0 || k <= lo || k <= hi) && s in Power(a, k);
        PowerAdd(a, lo, k - lo);
        var m: nat, e: Caps :| Joins(Power(a, lo), Power(a, k - lo), s, m, e);
        assert Joins(Power(a, lo), Repeated(a, 0, more), s, m, e);
      }
      if s in Then(Power(a, lo), Repeated(a, 0, more)) {
        var m: nat, e: Caps :| Joins(Power(a, lo), Repeated(a, 0, more), s, m, e);
        var k: nat :| (more < 0 || k <= 0 || k <= more) && Span(m, e, s.j, s.d) in Power(a, k);
        PowerAdd(a, lo, k);
        assert Joins(Power(a, lo), Power(a, k), s, m, e);
      }
    }
  }

  /** At most m repetitions: none, or one and at most m - 1 more. */
  lemma AtMostUnfold(a: Rel, m: nat)
    requires m > 0
    ensures Repeated(a, 0, m) == Id() + Then(a, Repeated(a, 0, m - 1))
  {
    forall s: Span ensures s in Repeated(a, 0, m) <==> s in Id() + Then(a, Repeated(a, 0, m - 1)) {
      if s in Repeated(a, 0, m) && s !in Id() {
        var k: nat :| (k <= 0 || k <= m) && s in Power(a, k);
        assert k > 0;
        var x: nat, e: Caps :| Joins(a, Power(a, k - 1), s, x, e);
        assert Joins(a, Repeated(a, 0, m - 1), s, x, e);
      }
      if s in Id() {
        assert s in Power(a, 0);
      }
      if s in Then(a, Repeated(a, 0, m - 1)) {
        var x: nat, e: Caps :| Joins(a, Repeated(a, 0, m - 1), s, x, e);
        var k: nat :| (k <= 0 || k <= m - 1) && Span(x, e, s.j, s.d) in Power(a, k);
        assert Joins(a, Power(a, k), s, x, e);
        assert s in Power(a, k + 1);
      }
    }
  }

  lemma AtMostNone(a: Rel)
    ensures Repeated(a, 0, 0) == Id()
  {
    forall s: Span ensures s in Repeated(a, 0, 0) <==> s in Id() {
      if s in Id() { assert s in Power(a, 0); }
    }
  }

  /* -------------------------------------------------------- the character machine */

  ghost function Multi(lead: set<Byte>, n: nat, w: Text): Rel {
    iset s: Span | s.c == s.d && Multibyte(lead, n, w, s.i, s.j)
  }

  lemma ClsRuns(p: Program, w: Text, t: nat)
    requires t < |p.sets| && !p.sets[t].negated
    ensures Runs(p, w, Cls(t)) == ByteIn(p.sets[t].members, w) == Multi(p.sets[t].members, 1, w)
  {
  }

  lemma MultiThen(lead: set<Byte>, n: nat, w: Text)
    requires n >= 1
    ensures Then(ByteIn(lead, w), Multi(Continuation(), n, w)) == Multi(lead, n + 1, w)
  {
    forall s: Span
      ensures s in Then(ByteIn(lead, w), Multi(Continuation(), n, w)) <==> s in Multi(lead, n + 1, w)
    {
      if s in Multi(lead, n + 1, w) {
        assert Joins(ByteIn(lead, w), Multi(Continuation(), n, w), s, s.i + 1, s.c);
      }
    }
  }

  lemma {:induction false} TailRuns(p: Program, w: Text, t: nat, n: nat)
    requires t < |p.sets| && n >= 1 && p.sets[t] == CharSet(Continuation(), false)
    ensures Runs(p, w, Tail(t, n)) == Multi(Continuation(), n, w)
    decreases n
  {
    ClsRuns(p, w, t);
    if n > 1 {
      TailRuns(p, w, t, n - 1);
      MultiThen(Continuation(), n - 1, w);
    }
  }

  lemma LeadRuns(p: Program, w: Text, t: nat, n: nat, lead: set<Byte>)
    requires n >= 2 && t + n < |p.sets|
    requires p.sets[t] == CharSet(Continuation(), false) && p.sets[t + n] == CharSet(lead, false)
    ensures Runs(p, w, Lead(t, n)) == Multi(lead, n, w)
  {
    ClsRuns(p, w, t + n);
    TailRuns(p, w, t, n - 1);
    MultiThen(lead, n - 1, w);
  }

  ghost predicate TableAt(p: Program, table: seq<CharSet>, t: nat) {
    t + |table| <= |p.sets| && p.sets[t..t + |table|] == table
  }

  lemma TableEntry(s: seq<CharSet>, t: nat, table: seq<CharSet>, x: nat)
    requires t + |table| <= |s| && s[t..t + |table|] == table && x < |table|
    ensures s[t + x] == table[x]
  {
    assert s[t + x] == s[t..t + |table|][x];
  }

  lemma CharInParts(ascii: set<Byte>, w: Text)
    ensures CharIn(ascii, w) ==
            Multi(ascii, 1, w) + (Multi(Lead2(), 2, w) + (Multi(Lead3(), 3, w) + Multi(Lead4(), 4, w)))
  {
  }

  lemma CharCoreRuns(p: Program, w: Text, ascii: set<Byte>, t: nat)
    requires TableAt(p, CharTable(ascii), t)
    ensures Runs(p, w, CharCore(t)) == CharIn(ascii, w)
  {
    hide Then, Multi, CharIn, Multibyte, ByteIn, Range, Runs;
    TableEntry(p.sets, t, CharTable(ascii), 0);
    TableEntry(p.sets, t, CharTable(ascii), 1);
    TableEntry(p.sets, t, CharTable(ascii), 2);
    TableEntry(p.sets, t, CharTable(ascii), 3);
    TableEntry(p.sets, t, CharTable(ascii), 4);
    ClsRuns(p, w, t + 1);
    LeadRuns(p, w, t, 2, Lead2());
    LeadRuns(p, w, t, 3, Lead3());
    LeadRuns(p, w, t, 4, Lead4());
    CharInParts(ascii, w);
    FourWay(p, w, Cls(t + 1), Lead(t, 2), Lead(t, 3), Lead(t, 4));
  }

  lemma FourWay(p: Program, w: Text, a: Core, b: Core, c: Core, d: Core)
    ensures Runs(p, w, Or(a, Or(b, Or(c, d)))) ==
            Runs(p, w, a) + (Runs(p, w, b) + (Runs(p, w, c) + Runs(p, w, d)))
  {
    assert Runs(p, w, Or(c, d)) == Runs(p, w, c) + Runs(p, w, d);
    assert Runs(p, w, Or(b, Or(c, d))) == Runs(p, w, b) + Runs(p, w, Or(c, d));
  }

  /* -------------------------------------------------------- lowering preserves meaning */

  lemma TableParts(p: Program, a: seq<CharSet>, b: seq<CharSet>, t: nat)
    requires TableAt(p, a + b, t)
    ensures TableAt(p, a, t) && TableAt(p, b, t + |a|)
  {
    var s := p.sets[t..t + |a + b|];
    assert p.sets[t..t + |a|] == s[..|a|];
    assert p.sets[t + |a|..t + |a + b|] == s[|a|..];
  }

  lemma {:induction false} CopiesRun(p: Program, w: Text, b: Node, m: nat, t: nat)
    requires TableAt(p, Repeat(SetsOf(b), m), t)
    requires forall u: nat :: TableAt(p, SetsOf(b), u) ==> Runs(p, w, Lower(b, u)) == Denote(b, w)
    ensures Runs(p, w, Copies(b, m, t)) == Power(Denote(b, w), m)
    decreases m
  {
    hide Then, Id, Lower, Denote, SetsOf, TableAt;
    if m > 0 {
      TableParts(p, SetsOf(b), Repeat(SetsOf(b), m - 1), t);
      CopiesRun(p, w, b, m - 1, t + |SetsOf(b)|);
    }
  }

  lemma OptSeqRuns(p: Program, w: Text, a: Core, rest: Core, g: bool)
    ensures Runs(p, w, Opt(Seq(a, rest), g)) == Id() + Then(Runs(p, w, a), Runs(p, w, rest))
  {
    assert Runs(p, w, Seq(a, rest)) == Then(Runs(p, w, a), Runs(p, w, rest));
  }

  lemma {:induction false} OptionsRun(p: Program, w: Text, b: Node, m: nat, g: bool, t: nat)
    requires TableAt(p, Repeat(SetsOf(b), m), t)
    requires forall u: nat :: TableAt(p, SetsOf(b), u) ==> Runs(p, w, Lower(b, u)) == Denote(b, w)
    ensures Runs(p, w, Options(b, m, g, t)) == Repeated(Denote(b, w), 0, m)
    decreases m
  {
    hide Then, Repeated, Id, Lower, Denote, SetsOf, TableAt;
    if m == 0 {
      AtMostNone(Denote(b, w));
    } else {
      TableParts(p, SetsOf(b), Repeat(SetsOf(b), m - 1), t);
      OptionsRun(p, w, b, m - 1, g, t + |SetsOf(b)|);
      OptSeqRuns(p, w, Lower(b, t), Options(b, m - 1, g, t + |SetsOf(b)|), g);
      AtMostUnfold(Denote(b, w), m);
    }
  }

  lemma NoOptionsLeft(b: Node, m: int, g: bool, t: nat)
    ensures m <= 0 ==> Options(b, m, g, t) == Nil && Repeat(SetsOf(b), m) == [] &&
                       Options(b, 0, g, t) == Nil && Repeat(SetsOf(b), 0) == []
  {
  }

  lemma RepMeaning(p: Program, w: Text, b: Node, lo: nat, hi: int, g: bool, t: nat)
    requires TableAt(p, SetsOf(Rep(b, lo, hi, g)), t)
    requires forall u: nat :: TableAt(p, SetsOf(b), u) ==> Runs(p, w, Lower(b, u)) == Denote(b, w)
    ensures Runs(p, w, Lower(Rep(b, lo, hi, g), t)) == Repeated(Denote(b, w), lo, hi)
  {
    hide Then, Repeated, Power, Id, Denote, SetsOf, TableAt, Copies, Options, Lower, Repeat;
    UnfoldLower(Rep(b, lo, hi, g), t);
    NoOptionsLeft(b, hi - lo, g, t + |Repeat(SetsOf(b), lo)|);
    var t' := t + |Repeat(SetsOf(b), lo)|;
    var tail := if hi < 0 then Star(Lower(b, t'), g) else Options(b, hi - lo, g, t');
    TableParts(p, Repeat(SetsOf(b), lo), if hi < 0 then SetsOf(b) else Repeat(SetsOf(b), hi - lo), t);
    CopiesRun(p, w, b, lo, t);
    var more := if hi < 0 then -1 else if hi > lo then hi - lo else 0;
    assert Runs(p, w, tail) == Repeated(Denote(b, w), 0, more) by {
      if hi >= 0 {
        OptionsRun(p, w, b, more, g, t');
      }
    }
    RepeatedSplit(Denote(b, w), lo, hi);
    SeqRuns(p, w, Copies(b, lo, t), tail);
  }

  lemma SeqRuns(p: Program, w: Text, a: Core, b: Core)
    ensures Runs(p, w, Seq(a, b)) == Then(Runs(p, w, a), Runs(p, w, b))
  {
  }

  lemma ClassMeaning(p: Program, w: Text, s: set<Byte>, negated: bool, t: nat)
    requires TableAt(p, SetsOf(Class(s, negated)), t)
    ensures Runs(p, w, Lower(Class(s, negated), t)) == Denote(Class(s, negated), w)
  {
    if negated {
      CharCoreRuns(p, w, NegatedAscii(s), t);
    } else {
      TableEntry(p.sets, t, SetsOf(Class(s, false)), 0);
      ClsRuns(p, w, t);
    }
  }

  /** A tree and its lowering have the same matches, captures included. */
  lemma {:induction false} LowerMeaning(p: Program, w: Text, n: Node, t: nat)
    requires TableAt(p, SetsOf(n), t)
    ensures Runs(p, w, Lower(n, t)) == Denote(n, w)
    decreases n
  {
    hide Then, Repeated, Power, Id, Anchored, ByteIn, CharIn, Mark, TableAt, Lower, CharCore;
    UnfoldLower(n, t);
    match n
    case Empty(bol, eol) =>
      EmptyMeaning(p, w, bol, eol, t);
    case Char(b) => CharMeaning(p, w, b);
    case Any =>
      CharCoreRuns(p, w, DotAscii(), t);
    case Class(s, negated) =>
      ClassMeaning(p, w, s, negated, t);
    case Cat(l, r) =>
      TableParts(p, SetsOf(l), SetsOf(r), t);
      LowerMeaning(p, w, l, t);
      LowerMeaning(p, w, r, t + |SetsOf(l)|);
    case Alt(l, r) =>
      TableParts(p, SetsOf(l), SetsOf(r), t);
      LowerMeaning(p, w, l, t);
      LowerMeaning(p, w, r, t + |SetsOf(l)|);
    case Rep(b, lo, hi, g) =>
      forall u: nat | TableAt(p, SetsOf(b), u) ensures Runs(p, w, Lower(b, u)) == Denote(b, w) {
        LowerMeaning(p, w, b, u);
      }
      RepMeaning(p, w, b, lo, hi, g, t);
    case Group(b, g) =>
      LowerMeaning(p, w, b, t);
      if g >= 0 {
        SeqRuns(p, w, Lower(b, t), Atom(SaveInst(2 * g + 1)));
        SeqRuns(p, w, Atom(SaveInst(2 * g)), Seq(Lower(b, t), Atom(SaveInst(2 * g + 1))));
      }
  }

  lemma CharMeaning(p: Program, w: Text, b: Byte)
    ensures Runs(p, w, Atom(CharInst(b))) == ByteIn({b}, w)
  {
  }

  lemma EmptyMeaning(p: Program, w: Text, bol: bool, eol: bool, t: nat)
    ensures Runs(p, w, Lower(Empty(bol, eol), t)) == Anchored(bol, eol, w)
  {
    var a := if bol then Atom(Blank(OpBol)) else Nil;
    var b := if eol then Atom(Blank(OpEol)) else Nil;
    forall s: Span ensures s in Then(Runs(p, w, a), Runs(p, w, b)) <==> s in Anchored(bol, eol, w) {
      if s in Anchored(bol, eol, w) {
        assert Joins(Runs(p, w, a), Runs(p, w, b), s, s.i, s.c);
      }
    }
  }
}
