/** The flat instruction set of runtime/src/regex.c, its one-step meaning, and
 *  the layout the compiler gives a tree. */
module RegexProgram {
  import opened RegexTree

  datatype Op = OpChar | OpAny | OpClass | OpMatch | OpJmp | OpSplit | OpSave | OpBol | OpEol

  /** One instruction, with every field present as in the C record. */
  datatype Inst = Inst(op: Op, x: int, y: int, c: Byte, cls: int)

  datatype CharSet = CharSet(members: set<Byte>, negated: bool) {
    predicate Has(b: Byte) { if negated then b !in members else b in members }
  }

  datatype Program = Program(code: seq<Inst>, sets: seq<CharSet>)

  function Blank(op: Op): Inst { Inst(op, 0, 0, 0, 0) }
  function CharInst(c: Byte): Inst { Blank(OpChar).(c := c) }
  function ClassInst(cls: int): Inst { Blank(OpClass).(cls := cls) }
  function JmpInst(x: int): Inst { Blank(OpJmp).(x := x) }
  function SplitInst(x: int, y: int): Inst { Blank(OpSplit).(x := x, y := y) }
  function SaveInst(x: int): Inst { Blank(OpSave).(x := x) }

  /* -------------------------------------------------------- running */

  datatype Conf = Conf(pc: int, at: nat, caps: Caps)

  predicate Consumes(p: Program, ins: Inst, w: Text, at: nat) {
    at < |w| &&
    match ins.op
    case OpChar => w[at] == ins.c
    case OpClass => 0 <= ins.cls < |p.sets| && p.sets[ins.cls].Has(w[at])
    case _ => false
  }

  /** One step of one thread. */
  ghost predicate Step(p: Program, w: Text, a: Conf, b: Conf) {
    0 <= a.pc < |p.code| &&
    var ins := p.code[a.pc];
    match ins.op
    case OpJmp => b == a.(pc := ins.x)
    case OpSplit => b == a.(pc := ins.x) || b == a.(pc := ins.y)
    case OpSave => b == Conf(a.pc + 1, a.at, Put(a.caps, ins.x, a.at))
    case OpBol => a.at == 0 && b == a.(pc := a.pc + 1)
    case OpEol => a.at == |w| && b == a.(pc := a.pc + 1)
    case _ => Consumes(p, ins, w, a.at) && b == Conf(a.pc + 1, a.at + 1, a.caps)
  }

  ghost predicate Path(p: Program, w: Text, s: seq<Conf>) {
    |s| > 0 && forall k :: 0 <= k < |s| - 1 ==> Step(p, w, s[k], s[k + 1])
  }

  ghost predicate Reach(p: Program, w: Text, a: Conf, b: Conf) {
    exists s :: Path(p, w, s) && s[0] == a && s[|s| - 1] == b
  }

  lemma ReachSelf(p: Program, w: Text, a: Conf)
    ensures Reach(p, w, a, a)
  {
    assert Path(p, w, [a]);
  }

  lemma ReachStep(p: Program, w: Text, a: Conf, b: Conf)
    requires Step(p, w, a, b)
    ensures Reach(p, w, a, b)
  {
    assert Path(p, w, [a, b]) && [a, b][0] == a && [a, b][1] == b;
  }

  lemma ReachTrans(p: Program, w: Text, a: Conf, b: Conf, c: Conf)
    requires Reach(p, w, a, b) && Reach(p, w, b, c)
    ensures Reach(p, w, a, c)
  {
    var s :| Path(p, w, s) && s[0] == a && s[|s| - 1] == b;
    var t :| Path(p, w, t) && t[0] == b && t[|t| - 1] == c;
    var u := s + t[1..];
    forall k | 0 <= k < |u| - 1 ensures Step(p, w, u[k], u[k + 1]) {
      if k >= |s| - 1 {
        assert u[k + 1] == t[k + 1 - (|s| - 1)];
        assert u[k] == t[k - (|s| - 1)];
      }
    }
    assert Path(p, w, u) && u[0] == a && u[|u| - 1] == c;
  }

  /* -------------------------------------------------------- structure */

  /** A tree with character classes resolved to table indices and counted
   *  repetition expanded: exactly the shapes the emitter lays out. */
  datatype Core =
    | Nil
    | Atom(ins: Inst)
    | Seq(first: Core, second: Core)
    | Or(first: Core, second: Core)
    | Star(inner: Core, greedy: bool)
    | Opt(inner: Core, greedy: bool)

  function Size(k: Core): nat {
    match k
    case Nil => 0
    case Atom(_) => 1
    case Seq(a, b) => Size(a) + Size(b)
    case Or(a, b) => Size(a) + Size(b) + 2
    case Star(a, _) => Size(a) + 2
    case Opt(a, _) => Size(a) + 1
  }

  function Branch(greedy: bool, enter: int, skip: int): Inst {
    if greedy then SplitInst(enter, skip) else SplitInst(skip, enter)
  }

  /** Instruction i of k's code when its first one is at index `at`. */
  function InstAt(k: Core, at: int, i: nat): Inst
    requires i < Size(k)
    decreases k
  {
    match k
    case Atom(ins) => ins
    case Seq(a, b) => if i < Size(a) then InstAt(a, at, i) else InstAt(b, at + Size(a), i - Size(a))
    case Or(a, b) =>
      if i == 0 then SplitInst(at + 1, at + 2 + Size(a))
      else if i < 1 + Size(a) then InstAt(a, at + 1, i - 1)
      else if i == 1 + Size(a) then JmpInst(at + 2 + Size(a) + Size(b))
      else InstAt(b, at + 2 + Size(a), i - 2 - Size(a))
    case Star(a, g) =>
      if i == 0 then Branch(g, at + 1, at + 2 + Size(a))
      else if i < 1 + Size(a) then InstAt(a, at + 1, i - 1)
      else JmpInst(at)
    case Opt(a, g) =>
      if i == 0 then Branch(g, at + 1, at + 1 + Size(a)) else InstAt(a, at + 1, i - 1)
  }

  function Layout(k: Core, at: int): seq<Inst> { seq(Size(k), i requires 0 <= i < Size(k) => InstAt(k, at, i)) }

  ghost predicate Holds(code: seq<Inst>, i: int, ins: Inst) { 0 <= i < |code| && code[i] == ins }

  /** The code of k stands in the program from index `at` on. */
  ghost predicate Placed(code: seq<Inst>, k: Core, at: nat) {
    match k
    case Nil => true
    case Atom(ins) => Holds(code, at, ins)
    case Seq(a, b) => Placed(code, a, at) && Placed(code, b, at + Size(a))
    case Or(a, b) =>
      && Holds(code, at, SplitInst(at + 1, at + 2 + Size(a))) && Placed(code, a, at + 1)
      && Holds(code, at + 1 + Size(a), JmpInst(at + 2 + Size(a) + Size(b))) && Placed(code, b, at + 2 + Size(a))
    case Star(a, g) =>
      && Holds(code, at, Branch(g, at + 1, at + 2 + Size(a))) && Placed(code, a, at + 1)
      && Holds(code, at + 1 + Size(a), JmpInst(at))
    case Opt(a, g) => Holds(code, at, Branch(g, at + 1, at + 1 + Size(a))) && Placed(code, a, at + 1)
  }

  /** Placement depends on the instructions in its range only. */
  ghost predicate SameRange(c: seq<Inst>, d: seq<Inst>, lo: nat, hi: nat) {
    hi <= |c| && hi <= |d| && forall i :: lo <= i < hi ==> d[i] == c[i]
  }

  lemma SubRange(c: seq<Inst>, d: seq<Inst>, lo: nat, hi: nat, lo': nat, hi': nat)
    requires SameRange(c, d, lo, hi) && lo <= lo' && hi' <= hi
    ensures SameRange(c, d, lo', hi')
  {
  }

  lemma {:induction false} PlacedFrame(code: seq<Inst>, code': seq<Inst>, k: Core, at: nat)
    requires Placed(code, k, at) && SameRange(code, code', at, at + Size(k))
    ensures Placed(code', k, at)
    decreases k
  {
    hide Placed, Size;
    UnfoldPlaced(code, k, at);
    UnfoldPlaced(code', k, at);
    match k
    case Nil =>
    case Atom(_) =>
    case Seq(a, b) =>
      hide SameRange;
      SubRange(code, code', at, at + Size(k), at, at + Size(a));
      SubRange(code, code', at, at + Size(k), at + Size(a), at + Size(k));
      PlacedFrame(code, code', a, at);
      PlacedFrame(code, code', b, at + Size(a));
    case Or(a, b) =>
      assert SameRange(code, code', at, at + 1) && SameRange(code, code', at + 1 + Size(a), at + 2 + Size(a));
      hide SameRange;
      SubRange(code, code', at, at + Size(k), at + 1, at + 1 + Size(a));
      SubRange(code, code', at, at + Size(k), at + 2 + Size(a), at + Size(k));
      PlacedFrame(code, code', a, at + 1);
      PlacedFrame(code, code', b, at + 2 + Size(a));
      HoldsFrame(code, code', at, SplitInst(at + 1, at + 2 + Size(a)));
      HoldsFrame(code, code', at + 1 + Size(a), JmpInst(at + Size(k)));
    case Star(a, g) =>
      SubRange(code, code', at, at + Size(k), at + 1, at + 1 + Size(a));
      PlacedFrame(code, code', a, at + 1);
    case Opt(a, g) =>
      SubRange(code, code', at, at + Size(k), at + 1, at + 1 + Size(a));
      PlacedFrame(code, code', a, at + 1);
  }

  lemma HoldsFrame(c: seq<Inst>, d: seq<Inst>, i: nat, ins: Inst)
    requires Holds(c, i, ins) && SameRange(c, d, i, i + 1)
    ensures Holds(d, i, ins)
  {
  }

  /** Placement one level down. */
  lemma UnfoldPlaced(code: seq<Inst>, k: Core, at: nat)
    ensures k.Seq? ==> Size(k) == Size(k.first) + Size(k.second)
    ensures k.Seq? ==> (Placed(code, k, at) <==>
                        Placed(code, k.first, at) && Placed(code, k.second, at + Size(k.first)))
    ensures k.Or? ==> Size(k) == Size(k.first) + Size(k.second) + 2
    ensures k.Or? ==> (Placed(code, k, at) <==>
                       Holds(code, at, SplitInst(at + 1, at + 2 + Size(k.first))) && Placed(code, k.first, at + 1) &&
                       Holds(code, at + 1 + Size(k.first), JmpInst(at + Size(k))) &&
                       Placed(code, k.second, at + 2 + Size(k.first)))
    ensures k.Star? ==> Size(k) == Size(k.inner) + 2
    ensures k.Star? ==> (Placed(code, k, at) <==>
                         Holds(code, at, Branch(k.greedy, at + 1, at + Size(k))) && Placed(code, k.inner, at + 1) &&
                         Holds(code, at + 1 + Size(k.inner), JmpInst(at)))
    ensures k.Opt? ==> Size(k) == Size(k.inner) + 1
    ensures k.Opt? ==> (Placed(code, k, at) <==>
                        Holds(code, at, Branch(k.greedy, at + 1, at + Size(k))) && Placed(code, k.inner, at + 1))
    ensures k.Atom? ==> Size(k) == 1 && (Placed(code, k, at) <==> Holds(code, at, k.ins))
    ensures k.Nil? ==> Size(k) == 0 && Placed(code, k, at)
  {
  }

  /** And conversely: a range listing those instructions is a placement. */
  ghost predicate Lists(code: seq<Inst>, k: Core, at: nat) {
    forall i: nat :: i < Size(k) ==> Holds(code, at + i, InstAt(k, at, i))
  }

  /** The code of sub placed at `pos` is the part of k's code from `off` on. */
  ghost predicate PartOf(sub: Core, pos: nat, k: Core, at: nat, off: nat) {
    && pos == at + off && off + Size(sub) <= Size(k)
    && forall i: nat :: i < Size(sub) ==> InstAt(sub, pos, i) == InstAt(k, at, off + i)
  }

  lemma Parts(k: Core, at: nat)
    ensures k.Seq? ==> PartOf(k.first, at, k, at, 0) && PartOf(k.second, at + Size(k.first), k, at, Size(k.first))
    ensures k.Or? ==> PartOf(k.first, at + 1, k, at, 1)
    ensures k.Or? ==> PartOf(k.second, at + 2 + Size(k.first), k, at, 2 + Size(k.first))
    ensures k.Star? ==> PartOf(k.inner, at + 1, k, at, 1)
    ensures k.Opt? ==> PartOf(k.inner, at + 1, k, at, 1)
  {
  }

  lemma ListsPart(code: seq<Inst>, k: Core, at: nat, sub: Core, pos: nat, off: nat)
    requires Lists(code, k, at) && PartOf(sub, pos, k, at, off)
    ensures Lists(code, sub, pos)
  {
    hide Size, InstAt;
    forall i: nat | i < Size(sub) ensures Holds(code, pos + i, InstAt(sub, pos, i)) {
      assert Holds(code, at + (off + i), InstAt(k, at, off + i));
    }
  }

  lemma ListsInst(code: seq<Inst>, k: Core, at: nat, i: nat)
    requires Lists(code, k, at) && i < Size(k)
    ensures Holds(code, at + i, InstAt(k, at, i))
  {
  }

  lemma OwnInsts(k: Core, at: nat)
    requires !k.Nil? && !k.Seq? ==> Size(k) > 0
    requires k.Or? ==> 1 + Size(k.first) < Size(k)
    requires k.Star? ==> 1 + Size(k.inner) < Size(k)
    ensures k.Atom? ==> InstAt(k, at, 0) == k.ins
    ensures k.Or? ==> InstAt(k, at, 0) == SplitInst(at + 1, at + 2 + Size(k.first))
    ensures k.Or? ==> InstAt(k, at, 1 + Size(k.first)) == JmpInst(at + Size(k))
    ensures k.Star? || k.Opt? ==> InstAt(k, at, 0) == Branch(k.greedy, at + 1, at + Size(k))
    ensures k.Star? ==> InstAt(k, at, 1 + Size(k.inner)) == JmpInst(at)
  {
    hide Branch;
  }

  /** A core's own instructions in place, and its parts placed. */
  lemma PlacedFromParts(code: seq<Inst>, k: Core, at: nat)
    requires !k.Nil? && !k.Seq? ==> Size(k) > 0 && Holds(code, at, InstAt(k, at, 0))
    requires k.Or? || k.Star? ==>
      var a := if k.Or? then k.first else k.inner;
      1 + Size(a) < Size(k) && Holds(code, at + 1 + Size(a), InstAt(k, at, 1 + Size(a)))
    requires k.Seq? ==> Placed(code, k.first, at) && Placed(code, k.second, at + Size(k.first))
    requires k.Or? ==> Placed(code, k.first, at + 1) && Placed(code, k.second, at + 2 + Size(k.first))
    requires k.Star? || k.Opt? ==> Placed(code, k.inner, at + 1)
    ensures Placed(code, k, at)
  {
    SizeAtLeast(k);
    hide Placed, Size, InstAt, Holds, Branch;
    OwnInsts(k, at);
    UnfoldPlaced(code, k, at);
  }

  lemma SizeAtLeast(k: Core)
    ensures !k.Nil? && !k.Seq? ==> Size(k) > 0
    ensures k.Or? ==> 1 + Size(k.first) < Size(k)
    ensures k.Star? ==> 1 + Size(k.inner) < Size(k)
  {
  }

  /** Placement says what every instruction of the range is. */
  lemma {:induction false} PlacedInst(code: seq<Inst>, k: Core, at: nat, i: nat)
    requires Placed(code, k, at) && i < Size(k)
    ensures Holds(code, at + i, InstAt(k, at, i))
    decreases k
  {
    hide Placed, Size, InstAt, Holds, Branch;
    Parts(k, at);
    SizeAtLeast(k);
    UnfoldPlaced(code, k, at);
    OwnInsts(k, at);
    match k
    case Nil =>
    case Atom(_) =>
    case Seq(a, b) =>
      if i < Size(a) {
        PlacedInst(code, a, at, i);
      } else {
        PlacedInst(code, b, at + Size(a), i - Size(a));
      }
    case Or(a, b) =>
      if 0 < i < 1 + Size(a) {
        PlacedInst(code, a, at + 1, i - 1);
      } else if i > 1 + Size(a) {
        PlacedInst(code, b, at + 2 + Size(a), i - 2 - Size(a));
      }
    case Star(a, _) =>
      if 0 < i < 1 + Size(a) {
        PlacedInst(code, a, at + 1, i - 1);
      }
    case Opt(a, _) =>
      if 0 < i {
        PlacedInst(code, a, at + 1, i - 1);
      }
  }

  lemma {:induction false} ListsIsPlaced(code: seq<Inst>, k: Core, at: nat)
    requires Lists(code, k, at)
    ensures Placed(code, k, at)
    decreases k
  {
    hide *;
    Parts(k, at);
    SizeAtLeast(k);
    if !k.Nil? && !k.Seq? { ListsInst(code, k, at, 0); }
    match k
    case Nil =>
      PlacedFromParts(code, k, at);
    case Atom(_) =>
      PlacedFromParts(code, k, at);
    case Seq(a, b) =>
      ListsPart(code, k, at, a, at, 0);
      ListsPart(code, k, at, b, at + Size(a), Size(a));
      ListsIsPlaced(code, a, at);
      ListsIsPlaced(code, b, at + Size(a));
      PlacedFromParts(code, k, at);
    case Or(a, b) =>
      ListsInst(code, k, at, 1 + Size(a));
      ListsPart(code, k, at, a, at + 1, 1);
      ListsPart(code, k, at, b, at + 2 + Size(a), 2 + Size(a));
      ListsIsPlaced(code, a, at + 1);
      ListsIsPlaced(code, b, at + 2 + Size(a));
      PlacedFromParts(code, k, at);
    case Star(a, _) =>
      ListsInst(code, k, at, 1 + Size(a));
      ListsPart(code, k, at, a, at + 1, 1);
      ListsIsPlaced(code, a, at + 1);
      PlacedFromParts(code, k, at);
    case Opt(a, _) =>
      ListsPart(code, k, at, a, at + 1, 1);
      ListsIsPlaced(code, a, at + 1);
      PlacedFromParts(code, k, at);
  }

  lemma LayoutIsPlaced(code: seq<Inst>, k: Core, at: nat)
    requires at + Size(k) <= |code| && code[at..at + Size(k)] == Layout(k, at)
    ensures Placed(code, k, at)
  {
    hide Size, InstAt, Placed;
    forall i: nat | i < Size(k) ensures Holds(code, at + i, InstAt(k, at, i)) {
      assert code[at + i] == code[at..at + Size(k)][i];
    }
    ListsIsPlaced(code, k, at);
  }

  /* -------------------------------------------------------- trees to cores */

  /** The class-table entries one copy of n adds. */
  function SetsOf(n: Node): seq<CharSet> {
    match n
    case Any => CharTable(DotAscii())
    case Class(s, negated) => if negated then CharTable(NegatedAscii(s)) else [CharSet(s, false)]
    case Cat(l, r) => SetsOf(l) + SetsOf(r)
    case Alt(l, r) => SetsOf(l) + SetsOf(r)
    case Rep(b, lo, hi, _) => Repeat(SetsOf(b), lo) + if hi < 0 then SetsOf(b) else Repeat(SetsOf(b), hi - lo)
    case Group(b, _) => SetsOf(b)
    case _ => []
  }

  function Repeat<T>(s: seq<T>, k: int): seq<T>
    decreases k
  {
    if k <= 0 then [] else s + Repeat(s, k - 1)
  }

  function CharTable(ascii: set<Byte>): seq<CharSet> {
    [CharSet(Continuation(), false), CharSet(ascii, false), CharSet(Lead2(), false),
     CharSet(Lead3(), false), CharSet(Lead4(), false)]
  }

  function Cls(i: int): Core { Atom(ClassInst(i)) }

  /** n continuation bytes (table entry t). */
  function Tail(t: int, n: nat): Core
    requires n >= 1
  {
    if n == 1 then Cls(t) else Seq(Cls(t), Tail(t, n - 1))
  }

  /** A lead byte (entry t + n) and its n - 1 continuation bytes. */
  function Lead(t: int, n: nat): Core
    requires n >= 2
  {
    Seq(Cls(t + n), Tail(t, n - 1))
  }

  /** The machine for one whole character, over the five table entries starting
   *  at t; the continuation class is shared by every branch. */
  function CharCore(t: int): Core {
    Or(Cls(t + 1), Or(Lead(t, 2), Or(Lead(t, 3), Lead(t, 4))))
  }

  /** n over a class table whose next free index is t. */
  function Lower(n: Node, t: int): Core
    decreases n, 0
  {
    match n
    case Empty(bol, eol) =>
      Seq(if bol then Atom(Blank(OpBol)) else Nil, if eol then Atom(Blank(OpEol)) else Nil)
    case Char(c) => Atom(CharInst(c))
    case Any => CharCore(t)
    case Class(_, negated) => if negated then CharCore(t) else Cls(t)
    case Cat(l, r) => Seq(Lower(l, t), Lower(r, t + |SetsOf(l)|))
    case Alt(l, r) => Or(Lower(l, t), Lower(r, t + |SetsOf(l)|))
    case Rep(b, lo, hi, g) =>
      var t' := t + |Repeat(SetsOf(b), lo)|;
      Seq(Copies(b, lo, t), if hi < 0 then Star(Lower(b, t'), g) else Options(b, hi - lo, g, t'))
    case Group(b, g) =>
      if g < 0 then Lower(b, t)
      else Seq(Atom(SaveInst(2 * g)), Seq(Lower(b, t), Atom(SaveInst(2 * g + 1))))
  }

  function Copies(b: Node, m: int, t: int): Core
    decreases b, 1, m
  {
    if m <= 0 then Nil else Seq(Lower(b, t), Copies(b, m - 1, t + |SetsOf(b)|))
  }

  /** m nested optional copies: every one of them skips to the same end. */
  function Options(b: Node, m: int, greedy: bool, t: int): Core
    decreases b, 1, m
  {
    if m <= 0 then Nil
    else Opt(Seq(Lower(b, t), Options(b, m - 1, greedy, t + |SetsOf(b)|)), greedy)
  }

  /** Lowering one level down. */
  lemma UnfoldLower(n: Node, t: int)
    ensures n.Char? ==> Lower(n, t) == Atom(CharInst(n.c)) && SetsOf(n) == []
    ensures n.Any? ==> Lower(n, t) == CharCore(t) && SetsOf(n) == CharTable(DotAscii())
    ensures n.Class? && n.negated ==> Lower(n, t) == CharCore(t) && SetsOf(n) == CharTable(NegatedAscii(n.members))
    ensures n.Class? && !n.negated ==> Lower(n, t) == Cls(t) && SetsOf(n) == [CharSet(n.members, false)]
    ensures n.Cat? ==> Lower(n, t) == Seq(Lower(n.left, t), Lower(n.right, t + |SetsOf(n.left)|))
    ensures n.Alt? ==> Lower(n, t) == Or(Lower(n.left, t), Lower(n.right, t + |SetsOf(n.left)|))
    ensures n.Cat? || n.Alt? ==> SetsOf(n) == SetsOf(n.left) + SetsOf(n.right)
    ensures n.Rep? ==> Lower(n, t) == var t' := t + |Repeat(SetsOf(n.body), n.min)|;
                                      Seq(Copies(n.body, n.min, t),
                                          if n.max < 0 then Star(Lower(n.body, t'), n.greedy)
                                          else Options(n.body, n.max - n.min, n.greedy, t'))
    ensures n.Rep? ==> SetsOf(n) == Repeat(SetsOf(n.body), n.min) +
                                    if n.max < 0 then SetsOf(n.body) else Repeat(SetsOf(n.body), n.max - n.min)
    ensures n.Group? ==> SetsOf(n) == SetsOf(n.body)
    ensures n.Group? && n.group < 0 ==> Lower(n, t) == Lower(n.body, t)
    ensures n.Group? && n.group >= 0 ==>
              Lower(n, t) == Seq(Atom(SaveInst(2 * n.group)), Seq(Lower(n.body, t), Atom(SaveInst(2 * n.group + 1))))
  {
    hide CharCore, CharTable, DotAscii, NegatedAscii, Repeat, Copies, Options, Cls;
  }

  /** The whole program: the tree bracketed by the saves of group 0, then MATCH. */
  function Whole(n: Node): Core {
    Seq(Atom(SaveInst(0)), Seq(Lower(n, 0), Seq(Atom(SaveInst(1)), Atom(Blank(OpMatch)))))
  }

  function Compiled(n: Node): Program { Program(Layout(Whole(n), 0), SetsOf(n)) }
}
