/** When the rounds of every loop of a tree take a byte, in terms of what the trees match. */
module RegexLoops {
  import opened RegexTree
  import opened RegexProgram
  import O = RegexOrder

  /** n matches the empty text, turning c into d. */
  ghost predicate Empties(n: Node, c: Caps, d: Caps) { Span(0, c, 0, d) in Denote(n, []) }

  ghost predicate CanFrom(n: Node, c: Caps) { exists d :: Empties(n, c, d) }

  ghost predicate MatchesNothing(n: Node) { exists c :: CanFrom(n, c) }

  /** No loop of n that is there at all has a body that matches the empty text. */
  ghost predicate EveryRoundTakes(n: Node) {
    match n
    case Cat(l, r) => EveryRoundTakes(l) && EveryRoundTakes(r)
    case Alt(l, r) => EveryRoundTakes(l) && EveryRoundTakes(r)
    case Rep(b, lo, hi, _) => (lo == 0 && hi == 0) || (EveryRoundTakes(b) && (hi < 0 ==> !MatchesNothing(b)))
    case Group(b, _) => EveryRoundTakes(b)
    case _ => true
  }

  lemma CharForward(ascii: set<Byte>, w: Text, s: Span)
    ensures s in CharIn(ascii, w) ==> s.i < s.j
  {
    hide Lead2, Lead3, Lead4, Continuation;
  }

  /** No match ends before it starts. */
  lemma {:induction false} Forward(n: Node, w: Text, s: Span)
    requires s in Denote(n, w)
    ensures s.i <= s.j
    decreases n, 0
  {
    hide CharIn, DotAscii, NegatedAscii;
    match n
    case Any => CharForward(DotAscii(), w, s);
    case Class(x, negated) => if negated { CharForward(NegatedAscii(x), w, s); }
    case Cat(l, r) =>
      var m: nat, e: Caps :| Joins(Denote(l, w), Denote(r, w), s, m, e);
      Forward(l, w, Span(s.i, s.c, m, e));
      Forward(r, w, Span(m, e, s.j, s.d));
    case Alt(l, r) => if s in Denote(l, w) { Forward(l, w, s); } else { Forward(r, w, s); }
    case Rep(b, lo, hi, _) =>
      var k: nat :| lo <= k && (hi < 0 || k <= lo || k <= hi) && s in Power(Denote(b, w), k);
      PowerForward(b, w, k, s);
    case Group(b, g) =>
      if g < 0 {
        Forward(b, w, s);
      } else {
        var m: nat, e: Caps :| Joins(Mark(2 * g), Then(Denote(b, w), Mark(2 * g + 1)), s, m, e);
        var m2: nat, e2: Caps :| Joins(Denote(b, w), Mark(2 * g + 1), Span(m, e, s.j, s.d), m2, e2);
        Forward(b, w, Span(m, e, m2, e2));
      }
    case _ =>
  }

  lemma {:induction false} PowerForward(b: Node, w: Text, k: nat, s: Span)
    requires s in Power(Denote(b, w), k)
    ensures s.i <= s.j
    decreases b, k + 1
  {
    if k > 0 {
      var m: nat, e: Caps :| Joins(Denote(b, w), Power(Denote(b, w), k - 1), s, m, e);
      Forward(b, w, Span(s.i, s.c, m, e));
      PowerForward(b, w, k - 1, Span(m, e, s.j, s.d));
    }
  }

  /* -------------------------------------------------------- the empty text */

  lemma CatEmpties(l: Node, r: Node, c: Caps)
    ensures CanFrom(Cat(l, r), c) <==> exists e :: Empties(l, c, e) && CanFrom(r, e)
  {
    hide CanFrom;
    if CanFrom(Cat(l, r), c) {
      var d := To(Cat(l, r), c);
      var m: nat, e: Caps :| Joins(Denote(l, []), Denote(r, []), Span(0, c, 0, d), m, e);
      Forward(r, [], Span(m, e, 0, d));
      Can(r, e, d);
      assert Empties(l, c, e);
    }
    if e :| Empties(l, c, e) && CanFrom(r, e) {
      var d := To(r, e);
      assert Joins(Denote(l, []), Denote(r, []), Span(0, c, 0, d), 0, e);
      Can(Cat(l, r), c, d);
    }
  }

  lemma To(n: Node, c: Caps) returns (d: Caps)
    requires CanFrom(n, c)
    ensures Empties(n, c, d)
  {
    hide Empties;
    d :| Empties(n, c, d);
  }

  lemma Can(n: Node, c: Caps, d: Caps)
    requires Empties(n, c, d)
    ensures CanFrom(n, c)
  {
    hide Empties;
  }

  lemma AltEmpties(l: Node, r: Node, c: Caps)
    ensures CanFrom(Alt(l, r), c) <==> CanFrom(l, c) || CanFrom(r, c)
  {
    hide CanFrom;
    if CanFrom(Alt(l, r), c) {
      var d := To(Alt(l, r), c);
      if Empties(l, c, d) { Can(l, c, d); } else { Can(r, c, d); }
    }
    if CanFrom(l, c) { var d := To(l, c); Can(Alt(l, r), c, d); }
    if CanFrom(r, c) { var d := To(r, c); Can(Alt(l, r), c, d); }
  }

  lemma GroupEmpties(b: Node, g: int, c: Caps)
    ensures CanFrom(Group(b, g), c) <==> CanFrom(b, if g < 0 then c else Put(c, 2 * g, 0))
  {
    hide CanFrom;
    var n := Group(b, g);
    if g < 0 {
      if CanFrom(n, c) { var d := To(n, c); Can(b, c, d); }
      if CanFrom(b, c) { var d := To(b, c); Can(n, c, d); }
    } else {
      var e := Put(c, 2 * g, 0);
      if CanFrom(n, c) {
        var d := To(n, c);
        var m: nat, x: Caps :| Joins(Mark(2 * g), Then(Denote(b, []), Mark(2 * g + 1)), Span(0, c, 0, d), m, x);
        var k: nat, f: Caps :| Joins(Denote(b, []), Mark(2 * g + 1), Span(m, x, 0, d), k, f);
        assert Empties(b, e, f);
        Can(b, e, f);
      }
      if CanFrom(b, e) {
        var f := To(b, e);
        var d := Put(f, 2 * g + 1, 0);
        assert Joins(Denote(b, []), Mark(2 * g + 1), Span(0, e, 0, d), 0, f);
        assert Joins(Mark(2 * g), Then(Denote(b, []), Mark(2 * g + 1)), Span(0, c, 0, d), 0, e);
        Can(n, c, d);
      }
    }
  }

  /** k of them. */
  lemma {:induction false} PowerEmpties(b: Node, k: nat, c: Caps) returns (d: Caps)
    requires forall e :: CanFrom(b, e)
    ensures Span(0, c, 0, d) in Power(Denote(b, []), k)
    decreases k
  {
    hide CanFrom;
    if k == 0 {
      d := c;
    } else {
      var e := To(b, c);
      d := PowerEmpties(b, k - 1, e);
      assert Joins(Denote(b, []), Power(Denote(b, []), k - 1), Span(0, c, 0, d), 0, e);
    }
  }

  lemma RepEmpties(b: Node, lo: nat, hi: int, g: bool, c: Caps)
    ensures lo == 0 || (forall e :: CanFrom(b, e)) ==> CanFrom(Rep(b, lo, hi, g), c)
    ensures lo > 0 && CanFrom(Rep(b, lo, hi, g), c) ==> CanFrom(b, c)
  {
    hide CanFrom;
    var r, n := Denote(b, []), Rep(b, lo, hi, g);
    if lo == 0 || forall e :: CanFrom(b, e) {
      var d := c;
      if lo > 0 { d := PowerEmpties(b, lo, c); }
      assert Span(0, c, 0, d) in Power(r, lo);
      assert RepeatsBetween(r, lo, hi, Span(0, c, 0, d));
      assert Empties(n, c, d);
      Can(n, c, d);
    }
    if lo > 0 && CanFrom(n, c) {
      var d := To(n, c);
      assert RepeatsBetween(r, lo, hi, Span(0, c, 0, d));
      var k: nat :| lo <= k && (hi < 0 || k <= lo || k <= hi) && Span(0, c, 0, d) in Power(r, k);
      var m: nat, e: Caps :| Joins(r, Power(r, k - 1), Span(0, c, 0, d), m, e);
      PowerForward(b, [], k - 1, Span(m, e, 0, d));
      assert Empties(b, c, e);
      Can(b, c, e);
    }
  }

  lemma EmptyLeaf(n: Node, c: Caps)
    requires n.Empty?
    ensures Empties(n, c, c)
  {}

  lemma ByteLeaf(n: Node, c: Caps, d: Caps)
    ensures n.Char? || n.Any? || n.Class? ==> !Empties(n, c, d)
  {
    hide DotAscii, NegatedAscii, Lead2, Lead3, Lead4, Continuation;
  }

  lemma LeafEmpties(n: Node, c: Caps)
    ensures n.Empty? ==> CanFrom(n, c)
    ensures n.Char? || n.Any? || n.Class? ==> !CanFrom(n, c)
  {
    hide CanFrom, Empties;
    if n.Empty? {
      EmptyLeaf(n, c);
      Can(n, c, c);
    } else if CanFrom(n, c) {
      var d := To(n, c);
      ByteLeaf(n, c, d);
    }
  }

  /* -------------------------------------------------------- the test on lowered trees */

  lemma CharTakes(t: int)
    ensures !O.MayBeEmpty(CharCore(t)) && O.RoundsTake(CharCore(t))
  {
    LeadTakes(t, 2);
    LeadTakes(t, 3);
    LeadTakes(t, 4);
    hide Lead;
    var c, d := Or(Lead(t, 3), Lead(t, 4)), Or(Lead(t, 2), Or(Lead(t, 3), Lead(t, 4)));
    assert !O.MayBeEmpty(c) && O.RoundsTake(c);
    assert !O.MayBeEmpty(d) && O.RoundsTake(d);
  }

  lemma LeadTakes(t: int, n: nat)
    requires n >= 2
    ensures !O.MayBeEmpty(Lead(t, n)) && O.RoundsTake(Lead(t, n))
  {
    TailTakes(t, n - 1);
    hide Tail;
  }

  lemma {:induction false} TailTakes(t: int, n: nat)
    requires n >= 1
    ensures !O.MayBeEmpty(Tail(t, n)) && O.RoundsTake(Tail(t, n))
  {
    if n > 1 { TailTakes(t, n - 1); }
  }

  /** The lowered tree may be empty, wherever its classes are. */
  ghost predicate Tests(b: Node, empty: bool) { forall u: int :: O.MayBeEmpty(Lower(b, u)) == empty }

  lemma TestsAt(b: Node, empty: bool, u: int)
    requires Tests(b, empty)
    ensures O.MayBeEmpty(Lower(b, u)) == empty
  {}

  lemma {:induction false} CopiesEmpty(b: Node, m: int, t: int, empty: bool)
    requires Tests(b, empty)
    ensures O.MayBeEmpty(Copies(b, m, t)) <==> m <= 0 || empty
    decreases m
  {
    hide Tests, Lower;
    if m > 0 {
      TestsAt(b, empty, t);
      CopiesEmpty(b, m - 1, t + |SetsOf(b)|, empty);
    }
  }

  lemma OptionsEmpty(b: Node, m: int, g: bool, t: int)
    ensures O.MayBeEmpty(RegexProgram.Options(b, m, g, t))
  {}

  /** The test is exact: a tree that may be empty matches the empty text from any captures, and one that
   *  may not matches it from none. */
  lemma {:induction false} EmptyExact(n: Node) returns (empty: bool)
    ensures Tests(n, empty) && forall c :: CanFrom(n, c) == empty
    decreases n
  {
    hide CanFrom, Tests, Denote, Lower, O.MayBeEmpty;
    match n
    case Empty(_, _) => empty := LeafExact(n);
    case Char(_) => empty := LeafExact(n);
    case Any => empty := CharExact(n);
    case Class(_, _) => empty := CharExact(n);
    case Cat(l, r) =>
      var x := EmptyExact(l);
      var y := EmptyExact(r);
      empty := x && y;
      CatExact(l, r, x, y);
    case Alt(l, r) =>
      var x := EmptyExact(l);
      var y := EmptyExact(r);
      empty := x || y;
      AltExact(l, r, x, y);
    case Rep(b, lo, hi, g) =>
      var x := EmptyExact(b);
      empty := lo == 0 || x;
      RepExact(b, lo, hi, g, x);
    case Group(b, g) =>
      empty := EmptyExact(b);
      GroupExact(b, g, empty);
  }

  lemma LeafExact(n: Node) returns (empty: bool)
    requires n.Empty? || n.Char?
    ensures Tests(n, empty) && forall c :: CanFrom(n, c) == empty
  {
    hide CanFrom;
    empty := n.Empty?;
    forall c ensures CanFrom(n, c) == empty { LeafEmpties(n, c); }
  }

  lemma CharExact(n: Node) returns (empty: bool)
    requires n.Any? || n.Class?
    ensures Tests(n, empty) && forall c :: CanFrom(n, c) == empty
  {
    hide CanFrom;
    empty := false;
    forall u: int ensures !O.MayBeEmpty(Lower(n, u)) { CharTakes(u); hide CharCore; }
    forall c ensures !CanFrom(n, c) { LeafEmpties(n, c); }
  }

  lemma CatExact(l: Node, r: Node, x: bool, y: bool)
    requires Tests(l, x) && Tests(r, y) && (forall c :: CanFrom(l, c) == x) && (forall c :: CanFrom(r, c) == y)
    ensures Tests(Cat(l, r), x && y) && forall c :: CanFrom(Cat(l, r), c) == (x && y)
  {
    hide CanFrom;
    forall u: int ensures O.MayBeEmpty(Lower(Cat(l, r), u)) == (x && y) {
      TestsAt(l, x, u);
      TestsAt(r, y, u + |SetsOf(l)|);
      hide Tests;
    }
    forall c ensures CanFrom(Cat(l, r), c) == (x && y) {
      CatEmpties(l, r, c);
      if CanFrom(l, c) { var e := To(l, c); }
      if e :| Empties(l, c, e) && CanFrom(r, e) { Can(l, c, e); }
    }
  }

  lemma AltExact(l: Node, r: Node, x: bool, y: bool)
    requires Tests(l, x) && Tests(r, y) && (forall c :: CanFrom(l, c) == x) && (forall c :: CanFrom(r, c) == y)
    ensures Tests(Alt(l, r), x || y) && forall c :: CanFrom(Alt(l, r), c) == (x || y)
  {
    hide CanFrom;
    forall u: int ensures O.MayBeEmpty(Lower(Alt(l, r), u)) == (x || y) {
      TestsAt(l, x, u);
      TestsAt(r, y, u + |SetsOf(l)|);
      hide Tests;
    }
    forall c ensures CanFrom(Alt(l, r), c) == (x || y) { AltEmpties(l, r, c); }
  }

  lemma RepExact(b: Node, lo: nat, hi: int, g: bool, x: bool)
    requires Tests(b, x) && forall c :: CanFrom(b, c) == x
    ensures Tests(Rep(b, lo, hi, g), lo == 0 || x) && forall c :: CanFrom(Rep(b, lo, hi, g), c) == (lo == 0 || x)
  {
    hide CanFrom, Denote, Lower, O.MayBeEmpty;
    forall u: int ensures O.MayBeEmpty(Lower(Rep(b, lo, hi, g), u)) == (lo == 0 || x) { RepTest(b, lo, hi, g, x, u); }
    forall c ensures CanFrom(Rep(b, lo, hi, g), c) == (lo == 0 || x) {
      RepEmpties(b, lo, hi, g, c);
      assert CanFrom(b, c) == x;
    }
  }

  lemma RepTest(b: Node, lo: nat, hi: int, g: bool, x: bool, u: int)
    requires Tests(b, x)
    ensures O.MayBeEmpty(Lower(Rep(b, lo, hi, g), u)) == (lo == 0 || x)
  {
    CopiesEmpty(b, lo, u, x);
    OptionsEmpty(b, hi - lo, g, u + |Repeat(SetsOf(b), lo)|);
    hide Tests, Copies;
  }

  lemma SavesPassed(b: Node, g: int, u: int)
    ensures O.MayBeEmpty(Lower(Group(b, g), u)) == O.MayBeEmpty(Lower(b, u))
    ensures O.RoundsTake(Lower(Group(b, g), u)) == O.RoundsTake(Lower(b, u))
  {
    var k := Lower(b, u);
    var x := Seq(k, Atom(SaveInst(2 * g + 1)));
    assert O.MayBeEmpty(x) == O.MayBeEmpty(k) && O.RoundsTake(x) == O.RoundsTake(k);
    if g >= 0 { assert Lower(Group(b, g), u) == Seq(Atom(SaveInst(2 * g)), x); }
  }

  lemma GroupExact(b: Node, g: int, x: bool)
    requires Tests(b, x) && forall c :: CanFrom(b, c) == x
    ensures Tests(Group(b, g), x) && forall c :: CanFrom(Group(b, g), c) == x
  {
    hide CanFrom;
    forall u: int ensures O.MayBeEmpty(Lower(Group(b, g), u)) == x {
      TestsAt(b, x, u);
      hide Tests;
      SavesPassed(b, g, u);
    }
    forall c ensures CanFrom(Group(b, g), c) == x { GroupEmpties(b, g, c); }
  }

  /* -------------------------------------------------------- loops */

  ghost predicate Rounds(b: Node, takes: bool) { forall u: int :: O.RoundsTake(Lower(b, u)) == takes }

  lemma RoundsAt(b: Node, takes: bool, u: int)
    requires Rounds(b, takes)
    ensures O.RoundsTake(Lower(b, u)) == takes
  {}

  lemma {:induction false} CopiesTake(b: Node, m: int, t: int, takes: bool)
    requires Rounds(b, takes)
    ensures O.RoundsTake(Copies(b, m, t)) <==> m <= 0 || takes
    decreases m
  {
    hide Rounds, Lower;
    if m > 0 {
      RoundsAt(b, takes, t);
      CopiesTake(b, m - 1, t + |SetsOf(b)|, takes);
    }
  }

  lemma {:induction false} OptionsTake(b: Node, m: int, g: bool, t: int, takes: bool)
    requires Rounds(b, takes)
    ensures O.RoundsTake(RegexProgram.Options(b, m, g, t)) <==> m <= 0 || takes
    decreases m
  {
    hide Rounds, Lower;
    if m > 0 {
      RoundsAt(b, takes, t);
      OptionsTake(b, m - 1, g, t + |SetsOf(b)|, takes);
    }
  }

  lemma RepRounds(b: Node, lo: nat, hi: int, g: bool, t: int, takes: bool, empty: bool)
    requires Rounds(b, takes) && Tests(b, empty)
    ensures O.RoundsTake(Lower(Rep(b, lo, hi, g), t)) <==> (lo == 0 && hi == 0) || (takes && (hi < 0 ==> !empty))
  {
    var u := t + |Repeat(SetsOf(b), lo)|;
    CopiesTake(b, lo, t, takes);
    OptionsTake(b, hi - lo, g, u, takes);
    RoundsAt(b, takes, u);
    TestsAt(b, empty, u);
    hide Rounds, Tests, Copies;
  }

  lemma {:induction false} RoundsExact(n: Node)
    ensures Rounds(n, EveryRoundTakes(n))
    decreases n
  {
    match n
    case Any => forall u: int ensures O.RoundsTake(Lower(n, u)) { CharTakes(u); hide CharCore; }
    case Class(_, _) => forall u: int ensures O.RoundsTake(Lower(n, u)) { CharTakes(u); hide CharCore; }
    case Cat(l, r) =>
      RoundsExact(l);
      RoundsExact(r);
      forall u: int ensures O.RoundsTake(Lower(n, u)) == EveryRoundTakes(n) {
        RoundsAt(l, EveryRoundTakes(l), u);
        RoundsAt(r, EveryRoundTakes(r), u + |SetsOf(l)|);
        hide Rounds;
      }
    case Alt(l, r) =>
      RoundsExact(l);
      RoundsExact(r);
      forall u: int ensures O.RoundsTake(Lower(n, u)) == EveryRoundTakes(n) {
        RoundsAt(l, EveryRoundTakes(l), u);
        RoundsAt(r, EveryRoundTakes(r), u + |SetsOf(l)|);
        hide Rounds;
      }
    case Rep(b, lo, hi, g) =>
      RoundsExact(b);
      var empty := EmptyExact(b);
      NothingIs(b, empty);
      forall u: int ensures O.RoundsTake(Lower(n, u)) == EveryRoundTakes(n) {
        RepRounds(b, lo, hi, g, u, EveryRoundTakes(b), empty);
        hide Rounds, Tests, Lower, MatchesNothing;
      }
    case Group(b, g) =>
      RoundsExact(b);
      forall u: int ensures O.RoundsTake(Lower(n, u)) == EveryRoundTakes(n) {
        RoundsAt(b, EveryRoundTakes(b), u);
        hide Rounds;
        SavesPassed(b, g, u);
      }
    case _ =>
  }

  lemma NothingIs(b: Node, empty: bool)
    requires forall c :: CanFrom(b, c) == empty
    ensures MatchesNothing(b) <==> empty
  {
    hide CanFrom;
    var none: Caps := [];
    assert CanFrom(b, none) == empty;
  }

  /** The test for the plain order asks exactly that no loop has a body that matches the empty text. */
  lemma LoopsTakeExact(n: Node)
    ensures O.LoopsTake(n) <==> EveryRoundTakes(n)
  {
    RoundsExact(n);
    RoundsAt(n, EveryRoundTakes(n), 0);
  }
}
