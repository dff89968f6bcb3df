/** The order of preference said on the tree itself, as its reader writes it: a left branch before the
 *  right one, a greedy repeat's longer runs first and a lazy one's last. */
module RegexPreference {
  import opened Options
  import opened RegexTree
  import opened RegexProgram
  import opened RegexCompiler
  import opened RegexBacktrack
  import opened RegexPriority
  import opened RegexOrder
  import L = RegexLayout
  import RegexLoops

  /* -------------------------------------------------------- the order on trees */

  /** The matches of n in w from i on, the preferred first. */
  ghost function InOrder(n: Node, w: Text, i: nat, c: Caps): (ws: seq<Way>)
    requires i <= |w|
    ensures Onward(ws, w, i)
    decreases n, 0, 0, 0, 0, 0
  {
    match n
    case Cat(l, r) => Each(r, w, InOrder(l, w, i, c), i)
    case Alt(l, r) => InOrder(l, w, i, c) + InOrder(r, w, i, c)
    case Rep(b, lo, hi, greedy) =>
      Rounds(b, lo, if hi < 0 then -1 else if hi > lo then hi - lo else 0, greedy, w, i, c)
    case Group(b, g) =>
      if g < 0 then InOrder(b, w, i, c) else Closed(2 * g + 1, InOrder(b, w, i, Put(c, 2 * g, i)), w, i)
    case _ => Leaf(n, w, i, c)
  }

  /** A leaf has at most one match from a position. */
  ghost function Leaf(n: Node, w: Text, i: nat, c: Caps): (ws: seq<Way>)
    requires i <= |w|
    ensures Onward(ws, w, i)
  {
    if j: nat :| i <= j <= |w| && Span(i, c, j, c) in Denote(n, w) then [Way(j, c)] else []
  }

  /** Each match followed by n's from its end. */
  ghost function Each(n: Node, w: Text, ws: seq<Way>, i: nat): (us: seq<Way>)
    requires Onward(ws, w, i)
    ensures Onward(us, w, i)
    decreases n, 1, 0, 0, 0, |ws|
  {
    if ws == [] then [] else InOrder(n, w, ws[0].at, ws[0].caps) + Each(n, w, ws[1..], i)
  }

  /** Each match with its end recorded in slot x. */
  ghost function Closed(x: int, ws: seq<Way>, w: Text, i: nat): (us: seq<Way>)
    requires Onward(ws, w, i)
    ensures Onward(us, w, i)
  {
    if ws == [] then [] else [Way(ws[0].at, Put(ws[0].caps, x, ws[0].at))] + Closed(x, ws[1..], w, i)
  }

  /** `lo` rounds of b and then up to `more` optional ones, any number where that is negative; one of these
   *  that takes no byte is none. */
  ghost function Rounds(b: Node, lo: nat, more: int, greedy: bool, w: Text, i: nat, c: Caps): (ws: seq<Way>)
    requires i <= |w|
    ensures Onward(ws, w, i)
    decreases b, 1, lo + (if more < 0 then 0 else more), |w| - i, 1, 0
  {
    if lo > 0 then EachRound(b, lo - 1, more, greedy, w, InOrder(b, w, i, c), i, false)
    else if more == 0 then [Way(i, c)]
    else
      var longer := EachRound(b, 0, if more < 0 then more else more - 1, greedy, w, InOrder(b, w, i, c), i, more < 0);
      if greedy then longer + [Way(i, c)] else [Way(i, c)] + longer
  }

  ghost function EachRound(b: Node, lo: nat, more: int, greedy: bool, w: Text, ws: seq<Way>, i: nat, onward: bool)
    : (us: seq<Way>)
    requires i <= |w| && Onward(ws, w, i)
    ensures Onward(us, w, i)
    decreases b, 1, lo + (if more < 0 then 0 else more), if onward then |w| - i else |w| + 1, 0, |ws|
  {
    if ws == [] then []
    else
      (if onward && ws[0].at == i then [] else Rounds(b, lo, more, greedy, w, ws[0].at, ws[0].caps))
      + EachRound(b, lo, more, greedy, w, ws[1..], i, onward)
  }

  /* -------------------------------------------------------- lowering keeps it */

  /** The core k has n's matches in n's order. */
  ghost predicate Agree(p: Program, w: Text, k: Core, n: Node) {
    forall i: nat, c: Caps | i <= |w| :: Ways(p, w, k, i, c) == InOrder(n, w, i, c)
  }

  lemma AgreeAt(p: Program, w: Text, k: Core, n: Node, i: nat, c: Caps)
    requires Agree(p, w, k, n) && i <= |w|
    ensures Ways(p, w, k, i, c) == InOrder(n, w, i, c)
  {}

  lemma {:induction false} EachAgrees(p: Program, w: Text, k: Core, n: Node, ws: seq<Way>, i: nat)
    requires Agree(p, w, k, n) && Onward(ws, w, i)
    ensures WaysEach(p, w, k, ws, i) == Each(n, w, ws, i)
    decreases |ws|
  {
    hide Agree, Ways, InOrder;
    if ws != [] {
      AgreeAt(p, w, k, n, ws[0].at, ws[0].caps);
      EachAgrees(p, w, k, n, ws[1..], i);
    }
  }

  lemma {:induction false} SaveEach(p: Program, w: Text, x: int, ws: seq<Way>, i: nat)
    requires Onward(ws, w, i)
    ensures WaysEach(p, w, Atom(SaveInst(x)), ws, i) == Closed(x, ws, w, i)
    decreases |ws|
  {
    if ws != [] { SaveEach(p, w, x, ws[1..], i); }
  }

  lemma {:induction false} EachJoins(p: Program, w: Text, k: Core, us: seq<Way>, vs: seq<Way>, i: nat)
    requires Onward(us, w, i) && Onward(vs, w, i) && Onward(us + vs, w, i)
    ensures WaysEach(p, w, k, us + vs, i) == WaysEach(p, w, k, us, i) + WaysEach(p, w, k, vs, i)
    decreases |us|
  {
    hide Ways, WaysEach;
    EachUnfolds(p, w, k, us, i);
    if us == [] {
      assert us + vs == vs;
    } else {
      TailJoins(us, vs);
      EachUnfolds(p, w, k, us + vs, i);
      EachJoins(p, w, k, us[1..], vs, i);
      var a, b, c := Ways(p, w, k, us[0].at, us[0].caps), WaysEach(p, w, k, us[1..], i), WaysEach(p, w, k, vs, i);
      Regroup(a, b, c);
    }
  }

  lemma EachUnfolds(p: Program, w: Text, k: Core, ws: seq<Way>, i: nat)
    requires Onward(ws, w, i)
    ensures ws == [] ==> WaysEach(p, w, k, ws, i) == []
    ensures ws != [] ==>
      WaysEach(p, w, k, ws, i) == Ways(p, w, k, ws[0].at, ws[0].caps) + WaysEach(p, w, k, ws[1..], i)
  {
    hide Ways;
  }

  lemma TailJoins<T>(x: seq<T>, y: seq<T>)
    requires x != []
    ensures (x + y)[0] == x[0] && (x + y)[1..] == x[1..] + y
  {}

  lemma Regroup<T>(x: seq<T>, y: seq<T>, z: seq<T>)
    ensures x + (y + z) == (x + y) + z
  {}

  lemma {:induction false} EachFrom(p: Program, w: Text, k: Core, ws: seq<Way>, i: nat, j: nat)
    requires Onward(ws, w, i) && Onward(ws, w, j)
    ensures WaysEach(p, w, k, ws, i) == WaysEach(p, w, k, ws, j)
    decreases |ws|
  {
    hide Ways;
    if ws != [] { EachFrom(p, w, k, ws[1..], i, j); }
  }

  /** The core k has the matches of up to `more` optional rounds of b. */
  ghost predicate Ends(p: Program, w: Text, k: Core, b: Node, more: int, g: bool) {
    forall i: nat, c: Caps | i <= |w| :: Ways(p, w, k, i, c) == Rounds(b, 0, more, g, w, i, c)
  }

  lemma EndsAt(p: Program, w: Text, k: Core, b: Node, more: int, g: bool, i: nat, c: Caps)
    requires Ends(p, w, k, b, more, g) && i <= |w|
    ensures Ways(p, w, k, i, c) == Rounds(b, 0, more, g, w, i, c)
  {}

  /** Those of the core a and then of k are those of lo rounds of b and then up to `more` optional ones. */
  ghost predicate Follow(p: Program, w: Text, a: Core, k: Core, b: Node, lo: nat, more: int, g: bool) {
    forall i: nat, c: Caps | i <= |w| :: WaysEach(p, w, k, Ways(p, w, a, i, c), i) == Rounds(b, lo, more, g, w, i, c)
  }

  lemma FollowAt(p: Program, w: Text, a: Core, k: Core, b: Node, lo: nat, more: int, g: bool, i: nat, c: Caps)
    requires Follow(p, w, a, k, b, lo, more, g) && i <= |w|
    ensures WaysEach(p, w, k, Ways(p, w, a, i, c), i) == Rounds(b, lo, more, g, w, i, c)
  {}

  lemma {:induction false} FollowEach(p: Program, w: Text, a: Core, k: Core, b: Node, lo: nat, more: int, g: bool,
                                      ws: seq<Way>, i: nat)
    requires Follow(p, w, a, k, b, lo, more, g) && i <= |w| && Onward(ws, w, i)
    ensures WaysEach(p, w, k, WaysEach(p, w, a, ws, i), i) == EachRound(b, lo, more, g, w, ws, i, false)
    decreases |ws|
  {
    hide Follow, Ways, Rounds;
    if ws != [] {
      var x := ws[0];
      FollowAt(p, w, a, k, b, lo, more, g, x.at, x.caps);
      FollowEach(p, w, a, k, b, lo, more, g, ws[1..], i);
      var us, vs := Ways(p, w, a, x.at, x.caps), WaysEach(p, w, a, ws[1..], i);
      EachFrom(p, w, k, us, x.at, i);
      EachJoins(p, w, k, us, vs, i);
    }
  }

  lemma {:induction false} CopiesFollow(p: Program, w: Text, b: Node, m: nat, t: nat, k: Core, more: int, g: bool)
    requires TableAt(p, Repeat(SetsOf(b), m), t) && Ends(p, w, k, b, more, g)
    requires forall u: nat | TableAt(p, SetsOf(b), u) :: Agree(p, w, Lower(b, u), b)
    ensures Follow(p, w, Copies(b, m, t), k, b, m, more, g)
    decreases m
  {
    hide Ends, Agree, Lower, SetsOf, TableAt, InOrder;
    forall i: nat, c: Caps | i <= |w|
      ensures WaysEach(p, w, k, Ways(p, w, Copies(b, m, t), i, c), i) == Rounds(b, m, more, g, w, i, c)
    {
      if m == 0 {
        EndsAt(p, w, k, b, more, g, i, c);
        OneEach(p, w, k, Way(i, c), i);
      } else {
        var a, rest := Lower(b, t), Copies(b, m - 1, t + |SetsOf(b)|);
        TableParts(p, SetsOf(b), Repeat(SetsOf(b), m - 1), t);
        CopiesFollow(p, w, b, m - 1, t + |SetsOf(b)|, k, more, g);
        AgreeAt(p, w, a, b, i, c);
        FollowEach(p, w, rest, k, b, m - 1, more, g, InOrder(b, w, i, c), i);
        SeqWays(p, w, a, rest, i, c);
        hide Ways, WaysEach, Follow;
      }
    }
  }

  lemma OneEach(p: Program, w: Text, k: Core, x: Way, i: nat)
    requires i <= x.at <= |w|
    ensures WaysEach(p, w, k, [x], i) == Ways(p, w, k, x.at, x.caps)
  {
    hide Ways;
    assert [x][1..] == [];
  }

  lemma SeqWays(p: Program, w: Text, a: Core, b: Core, i: nat, c: Caps)
    requires i <= |w|
    ensures Ways(p, w, Seq(a, b), i, c) == WaysEach(p, w, b, Ways(p, w, a, i, c), i)
  {}

  /** Any number of rounds. */
  lemma {:induction false} StarEnds(p: Program, w: Text, k: Core, b: Node, g: bool, i: nat, c: Caps)
    requires Agree(p, w, k, b) && i <= |w|
    ensures Ways(p, w, Star(k, g), i, c) == Rounds(b, 0, -1, g, w, i, c)
    decreases |w| - i, 1, 0
  {
    hide Agree, InOrder;
    AgreeAt(p, w, k, b, i, c);
    StarAgain(p, w, k, b, g, InOrder(b, w, i, c), i);
    hide WaysAgain, EachRound;
  }

  lemma {:induction false} StarAgain(p: Program, w: Text, k: Core, b: Node, g: bool, ws: seq<Way>, i: nat)
    requires Agree(p, w, k, b) && i <= |w| && Onward(ws, w, i)
    ensures WaysAgain(p, w, Star(k, g), ws, i) == EachRound(b, 0, -1, g, w, ws, i, true)
    decreases |w| - i, 0, |ws|
  {
    hide Agree, Ways, Rounds;
    if ws != [] {
      if ws[0].at > i { StarEnds(p, w, k, b, g, ws[0].at, ws[0].caps); }
      StarAgain(p, w, k, b, g, ws[1..], i);
    }
  }

  /** Up to m rounds. */
  lemma {:induction false} OptionsEnd(p: Program, w: Text, b: Node, m: nat, g: bool, t: nat)
    requires TableAt(p, Repeat(SetsOf(b), m), t)
    requires forall u: nat | TableAt(p, SetsOf(b), u) :: Agree(p, w, Lower(b, u), b)
    ensures Ends(p, w, RegexProgram.Options(b, m, g, t), b, m, g)
    decreases m
  {
    hide Agree, Lower, SetsOf, TableAt, InOrder;
    forall i: nat, c: Caps | i <= |w|
      ensures Ways(p, w, RegexProgram.Options(b, m, g, t), i, c) == Rounds(b, 0, m, g, w, i, c)
    {
      if m > 0 {
        var a, rest := Lower(b, t), RegexProgram.Options(b, m - 1, g, t + |SetsOf(b)|);
        TableParts(p, SetsOf(b), Repeat(SetsOf(b), m - 1), t);
        OptionsEnd(p, w, b, m - 1, g, t + |SetsOf(b)|);
        AgreeAt(p, w, a, b, i, c);
        EachEnds(p, w, rest, b, m - 1, g, InOrder(b, w, i, c), i);
        SeqWays(p, w, a, rest, i, c);
        OptWays(p, w, Seq(a, rest), g, i, c);
        hide Ways, WaysEach, Ends, EachRound;
      }
    }
  }

  lemma OptWays(p: Program, w: Text, a: Core, g: bool, i: nat, c: Caps)
    requires i <= |w|
    ensures Ways(p, w, Opt(a, g), i, c)
         == if g then Ways(p, w, a, i, c) + [Way(i, c)] else [Way(i, c)] + Ways(p, w, a, i, c)
  {}

  lemma {:induction false} EachEnds(p: Program, w: Text, k: Core, b: Node, more: nat, g: bool, ws: seq<Way>, i: nat)
    requires Ends(p, w, k, b, more, g) && i <= |w| && Onward(ws, w, i)
    ensures WaysEach(p, w, k, ws, i) == EachRound(b, 0, more, g, w, ws, i, false)
    decreases |ws|
  {
    hide Ends, Ways, Rounds;
    if ws != [] {
      EndsAt(p, w, k, b, more, g, ws[0].at, ws[0].caps);
      EachEnds(p, w, k, b, more, g, ws[1..], i);
    }
  }

  lemma RepAgrees(p: Program, w: Text, b: Node, lo: nat, hi: int, g: bool, t: nat)
    requires TableAt(p, SetsOf(Rep(b, lo, hi, g)), t)
    requires forall u: nat | TableAt(p, SetsOf(b), u) :: Agree(p, w, Lower(b, u), b)
    ensures Agree(p, w, Lower(Rep(b, lo, hi, g), t), Rep(b, lo, hi, g))
  {
    hide SetsOf, TableAt, Copies, RegexProgram.Options, Lower, Repeat, Ways, WaysEach, Rounds;
    UnfoldLower(Rep(b, lo, hi, g), t);
    NoOptionsLeft(b, hi - lo, g, t + |Repeat(SetsOf(b), lo)|);
    var t' := t + |Repeat(SetsOf(b), lo)|;
    var tail := if hi < 0 then Star(Lower(b, t'), g) else RegexProgram.Options(b, hi - lo, g, t');
    TableParts(p, Repeat(SetsOf(b), lo), if hi < 0 then SetsOf(b) else Repeat(SetsOf(b), hi - lo), t);
    var more := if hi < 0 then -1 else if hi > lo then hi - lo else 0;
    assert Ends(p, w, tail, b, more, g) by {
      if hi >= 0 {
        OptionsEnd(p, w, b, more, g, t');
      } else {
        forall i: nat, c: Caps | i <= |w| ensures Ways(p, w, tail, i, c) == Rounds(b, 0, -1, g, w, i, c) {
          StarEnds(p, w, Lower(b, t'), b, g, i, c);
        }
      }
    }
    CopiesFollow(p, w, b, lo, t, tail, more, g);
    forall i: nat, c: Caps | i <= |w|
      ensures Ways(p, w, Seq(Copies(b, lo, t), tail), i, c) == InOrder(Rep(b, lo, hi, g), w, i, c)
    {
      SeqWays(p, w, Copies(b, lo, t), tail, i, c);
      FollowAt(p, w, Copies(b, lo, t), tail, b, lo, more, g, i, c);
    }
  }

  /* -------------------------------------------------------- leaves */

  function If(b: bool, x: Way): seq<Way> { if b then [x] else [] }

  lemma ClsWays(p: Program, w: Text, t: nat, i: nat, c: Caps)
    requires t < |p.sets| && i <= |w|
    ensures Ways(p, w, Cls(t), i, c) == If(i < |w| && p.sets[t].Has(w[i]), Way(i + 1, c))
  {}

  ghost predicate AllIn(s: CharSet, w: Text, i: nat, j: nat) { i <= j <= |w| && forall x | i <= x < j :: s.Has(w[x]) }

  lemma {:induction false} TailWays(p: Program, w: Text, t: nat, n: nat, i: nat, c: Caps)
    requires t < |p.sets| && i <= |w| && n >= 1
    ensures Ways(p, w, Tail(t, n), i, c) == If(AllIn(p.sets[t], w, i, i + n), Way(i + n, c))
    decreases n
  {
    hide Ways, AllIn;
    ClsWays(p, w, t, i, c);
    AllInNext(p.sets[t], w, i, i + n);
    if n == 1 {
      if i < |w| { AllInNone(p.sets[t], w, i + 1); }
    } else {
      SeqWays(p, w, Cls(t), Tail(t, n - 1), i, c);
      if i < |w| && p.sets[t].Has(w[i]) {
        TailWays(p, w, t, n - 1, i + 1, c);
        OneEach(p, w, Tail(t, n - 1), Way(i + 1, c), i);
      }
    }
  }

  lemma AllInNext(s: CharSet, w: Text, i: nat, j: nat)
    requires i < j
    ensures AllIn(s, w, i, j) <==> i < |w| && s.Has(w[i]) && AllIn(s, w, i + 1, j)
  {
    hide s.Has;
  }

  lemma AllInNone(s: CharSet, w: Text, i: nat)
    requires i <= |w|
    ensures AllIn(s, w, i, i)
  {}

  lemma LeadWays(p: Program, w: Text, t: nat, n: nat, lead: set<Byte>, i: nat, c: Caps)
    requires n >= 2 && t + n < |p.sets| && i <= |w|
    requires p.sets[t] == CharSet(Continuation(), false) && p.sets[t + n] == CharSet(lead, false)
    ensures Ways(p, w, Lead(t, n), i, c) == If(Multibyte(lead, n, w, i, i + n), Way(i + n, c))
  {
    hide Continuation, Ways;
    ClsWays(p, w, t + n, i, c);
    SeqWays(p, w, Cls(t + n), Tail(t, n - 1), i, c);
    if i < |w| && w[i] in lead {
      TailWays(p, w, t, n - 1, i + 1, c);
      OneEach(p, w, Tail(t, n - 1), Way(i + 1, c), i);
      assert AllIn(p.sets[t], w, i + 1, i + n) <==> Multibyte(lead, n, w, i, i + n);
    }
  }

  lemma OrWays(p: Program, w: Text, a: Core, b: Core, i: nat, c: Caps)
    requires i <= |w|
    ensures Ways(p, w, Or(a, b), i, c) == Ways(p, w, a, i, c) + Ways(p, w, b, i, c)
  {}

  lemma CharCoreWays(p: Program, w: Text, ascii: set<Byte>, t: nat, i: nat, c: Caps)
    requires TableAt(p, CharTable(ascii), t) && i <= |w|
    ensures Ways(p, w, CharCore(t), i, c)
         == If(Multibyte(ascii, 1, w, i, i + 1), Way(i + 1, c))
            + (If(Multibyte(Lead2(), 2, w, i, i + 2), Way(i + 2, c))
               + (If(Multibyte(Lead3(), 3, w, i, i + 3), Way(i + 3, c))
                  + If(Multibyte(Lead4(), 4, w, i, i + 4), Way(i + 4, c))))
  {
    hide Ways, Lead, Lead2, Lead3, Lead4, Continuation, Multibyte, TableAt, If;
    CharEntries(p, ascii, t);
    AsciiWays(p, w, t + 1, ascii, i, c);
    LeadWays(p, w, t, 2, Lead2(), i, c);
    LeadWays(p, w, t, 3, Lead3(), i, c);
    LeadWays(p, w, t, 4, Lead4(), i, c);
    OrWays(p, w, Lead(t, 3), Lead(t, 4), i, c);
    OrWays(p, w, Lead(t, 2), Or(Lead(t, 3), Lead(t, 4)), i, c);
    OrWays(p, w, Cls(t + 1), Or(Lead(t, 2), Or(Lead(t, 3), Lead(t, 4))), i, c);
  }

  lemma CharEntries(p: Program, ascii: set<Byte>, t: nat)
    requires TableAt(p, CharTable(ascii), t)
    ensures t + 4 < |p.sets| && p.sets[t] == CharSet(Continuation(), false) && p.sets[t + 1] == CharSet(ascii, false)
    ensures p.sets[t + 2] == CharSet(Lead2(), false) && p.sets[t + 3] == CharSet(Lead3(), false)
    ensures p.sets[t + 4] == CharSet(Lead4(), false)
  {
    hide Lead2, Lead3, Lead4, Continuation;
    TableEntry(p.sets, t, CharTable(ascii), 0);
    TableEntry(p.sets, t, CharTable(ascii), 1);
    TableEntry(p.sets, t, CharTable(ascii), 2);
    TableEntry(p.sets, t, CharTable(ascii), 3);
    TableEntry(p.sets, t, CharTable(ascii), 4);
  }

  lemma AsciiWays(p: Program, w: Text, t: nat, ascii: set<Byte>, i: nat, c: Caps)
    requires t < |p.sets| && i <= |w| && p.sets[t] == CharSet(ascii, false)
    ensures Ways(p, w, Cls(t), i, c) == If(Multibyte(ascii, 1, w, i, i + 1), Way(i + 1, c))
  {
    hide Ways, Continuation;
    ClsWays(p, w, t, i, c);
  }

  /** At most one of the four. */
  lemma OneShape(ascii: set<Byte>, w: Text, i: nat)
    requires forall b | b in ascii :: b < 0x80
    ensures Multibyte(ascii, 1, w, i, i + 1) ==> !Multibyte(Lead2(), 2, w, i, i + 2)
    ensures Multibyte(Lead3(), 3, w, i, i + 3) ==>
      !Multibyte(ascii, 1, w, i, i + 1) && !Multibyte(Lead2(), 2, w, i, i + 2)
    ensures Multibyte(Lead4(), 4, w, i, i + 4) ==>
      !Multibyte(ascii, 1, w, i, i + 1) && !Multibyte(Lead2(), 2, w, i, i + 2) && !Multibyte(Lead3(), 3, w, i, i + 3)
  {}

  lemma CharAgrees(p: Program, w: Text, n: Node, ascii: set<Byte>, t: nat)
    requires TableAt(p, CharTable(ascii), t) && (forall b | b in ascii :: b < 0x80)
    requires n.Any? || n.Class?
    requires Denote(n, w) == CharIn(ascii, w)
    ensures Agree(p, w, CharCore(t), n)
  {
    hide Ways, Multibyte, Denote;
    forall i: nat, c: Caps | i <= |w| ensures Ways(p, w, CharCore(t), i, c) == InOrder(n, w, i, c) {
      CharCoreWays(p, w, ascii, t, i, c);
      OneShape(ascii, w, i);
      LeafEnds(n, w, ascii, i, c);
      LeafOf(n, w, i, c, Multibyte(ascii, 1, w, i, i + 1), Multibyte(Lead2(), 2, w, i, i + 2),
             Multibyte(Lead3(), 3, w, i, i + 3), Multibyte(Lead4(), 4, w, i, i + 4));
      hide If, Leaf;
    }
  }

  lemma LeafOf(n: Node, w: Text, i: nat, c: Caps, a: bool, b: bool, d: bool, e: bool)
    requires i <= |w| && (a ==> !b) && (d ==> !a && !b) && (e ==> !a && !b && !d)
    requires forall j: nat | Span(i, c, j, c) in Denote(n, w) :: i <= j <= |w|
    requires forall j: nat :: Span(i, c, j, c) in Denote(n, w) <==>
      (j == i + 1 && a) || (j == i + 2 && b) || (j == i + 3 && d) || (j == i + 4 && e)
    ensures Leaf(n, w, i, c)
         == If(a, Way(i + 1, c)) + (If(b, Way(i + 2, c)) + (If(d, Way(i + 3, c)) + If(e, Way(i + 4, c))))
  {
    hide Denote;
    if a || b || d || e {
      var j := if a then i + 1 else if b then i + 2 else if d then i + 3 else i + 4;
      assert Span(i, c, j, c) in Denote(n, w);
    }
  }

  lemma LeafEnds(n: Node, w: Text, ascii: set<Byte>, i: nat, c: Caps)
    requires Denote(n, w) == CharIn(ascii, w) && i <= |w|
    ensures forall j: nat :: Span(i, c, j, c) in Denote(n, w) <==>
      (j == i + 1 && Multibyte(ascii, 1, w, i, j)) || (j == i + 2 && Multibyte(Lead2(), 2, w, i, j))
      || (j == i + 3 && Multibyte(Lead3(), 3, w, i, j)) || (j == i + 4 && Multibyte(Lead4(), 4, w, i, j))
    ensures forall j: nat | Span(i, c, j, c) in Denote(n, w) :: i <= j <= |w|
  {
    hide Denote, Lead2, Lead3, Lead4, Continuation;
  }

  /** The order is the tree's, empty rounds of a loop left out on both sides. */
  lemma {:induction false} TreeOrder(p: Program, w: Text, n: Node, t: nat)
    requires TableAt(p, SetsOf(n), t)
    ensures Agree(p, w, Lower(n, t), n)
    decreases n
  {
    hide TableAt, Agree, Lower, SetsOf, CharTable, Denote, DotAscii, NegatedAscii, InOrder, Ways;
    UnfoldLower(n, t);
    match n
    case Cat(l, r) =>
      TableParts(p, SetsOf(l), SetsOf(r), t);
      TreeOrder(p, w, l, t);
      TreeOrder(p, w, r, t + |SetsOf(l)|);
      CatAgrees(p, w, Lower(l, t), Lower(r, t + |SetsOf(l)|), l, r);
    case Alt(l, r) =>
      TableParts(p, SetsOf(l), SetsOf(r), t);
      TreeOrder(p, w, l, t);
      TreeOrder(p, w, r, t + |SetsOf(l)|);
      AltAgrees(p, w, Lower(l, t), Lower(r, t + |SetsOf(l)|), l, r);
    case Rep(b, lo, hi, g) =>
      forall u: nat | TableAt(p, SetsOf(b), u) ensures Agree(p, w, Lower(b, u), b) { TreeOrder(p, w, b, u); }
      RepAgrees(p, w, b, lo, hi, g, t);
    case Group(b, g) =>
      TreeOrder(p, w, b, t);
      GroupAgrees(p, w, Lower(b, t), b, g);
    case Any => DotAgrees(p, w, t);
    case Class(s, negated) => if negated { NegatedAgrees(p, w, s, t); } else { ClassAgrees(p, w, s, t); }
    case Char(b) => ByteAgrees(p, w, b);
    case Empty(bol, eol) => EmptyAgrees(p, w, bol, eol, t);
  }

  lemma DotAgrees(p: Program, w: Text, t: nat)
    requires TableAt(p, CharTable(DotAscii()), t)
    ensures Agree(p, w, CharCore(t), Any)
  {
    hide TableAt, Agree, CharTable, CharCore;
    CharAgrees(p, w, Any, DotAscii(), t);
  }

  lemma NegatedAgrees(p: Program, w: Text, s: set<Byte>, t: nat)
    requires TableAt(p, CharTable(NegatedAscii(s)), t)
    ensures Agree(p, w, CharCore(t), Class(s, true))
  {
    hide TableAt, Agree, CharTable, CharCore;
    CharAgrees(p, w, Class(s, true), NegatedAscii(s), t);
  }

  lemma CatAgrees(p: Program, w: Text, a: Core, b: Core, l: Node, r: Node)
    requires Agree(p, w, a, l) && Agree(p, w, b, r)
    ensures Agree(p, w, Seq(a, b), Cat(l, r))
  {
    hide Ways;
    forall i: nat, c: Caps | i <= |w| ensures Ways(p, w, Seq(a, b), i, c) == InOrder(Cat(l, r), w, i, c) {
      SeqWays(p, w, a, b, i, c);
      EachAgrees(p, w, b, r, Ways(p, w, a, i, c), i);
    }
  }

  lemma AltAgrees(p: Program, w: Text, a: Core, b: Core, l: Node, r: Node)
    requires Agree(p, w, a, l) && Agree(p, w, b, r)
    ensures Agree(p, w, Or(a, b), Alt(l, r))
  {
    hide Ways;
    forall i: nat, c: Caps | i <= |w| ensures Ways(p, w, Or(a, b), i, c) == InOrder(Alt(l, r), w, i, c) {
      OrWays(p, w, a, b, i, c);
    }
  }

  lemma GroupAgrees(p: Program, w: Text, a: Core, b: Node, g: int)
    requires Agree(p, w, a, b)
    ensures Agree(p, w, if g < 0 then a else Seq(Atom(SaveInst(2 * g)), Seq(a, Atom(SaveInst(2 * g + 1)))), Group(b, g))
  {
    hide Ways, InOrder, Agree, Closed;
    var x, y := Atom(SaveInst(2 * g)), Atom(SaveInst(2 * g + 1));
    forall i: nat, c: Caps | i <= |w|
      ensures Ways(p, w, if g < 0 then a else Seq(x, Seq(a, y)), i, c) == InOrder(Group(b, g), w, i, c)
    {
      GroupWays(p, w, a, 2 * g, i, c);
      AgreeAt(p, w, a, b, i, if g < 0 then c else Put(c, 2 * g, i));
      GroupOrder(b, g, w, i, c);
    }
    MakesAgree(p, w, if g < 0 then a else Seq(x, Seq(a, y)), Group(b, g));
  }

  lemma GroupOrder(b: Node, g: int, w: Text, i: nat, c: Caps)
    requires i <= |w|
    ensures InOrder(Group(b, g), w, i, c)
         == if g < 0 then InOrder(b, w, i, c) else Closed(2 * g + 1, InOrder(b, w, i, Put(c, 2 * g, i)), w, i)
  {
    hide Closed;
  }

  lemma MakesAgree(p: Program, w: Text, k: Core, n: Node)
    requires forall i: nat, c: Caps | i <= |w| :: Ways(p, w, k, i, c) == InOrder(n, w, i, c)
    ensures Agree(p, w, k, n)
  {
    hide Ways, InOrder;
  }

  lemma GroupWays(p: Program, w: Text, a: Core, g: int, i: nat, c: Caps)
    requires i <= |w|
    ensures Ways(p, w, Seq(Atom(SaveInst(g)), Seq(a, Atom(SaveInst(g + 1)))), i, c)
         == Closed(g + 1, Ways(p, w, a, i, Put(c, g, i)), w, i)
  {
    hide Ways;
    var y, d := Atom(SaveInst(g + 1)), Put(c, g, i);
    SeqWays(p, w, Atom(SaveInst(g)), Seq(a, y), i, c);
    SaveWays(p, w, g, i, c);
    OneEach(p, w, Seq(a, y), Way(i, d), i);
    SeqWays(p, w, a, y, i, d);
    SaveEach(p, w, g + 1, Ways(p, w, a, i, d), i);
  }

  lemma SaveWays(p: Program, w: Text, x: int, i: nat, c: Caps)
    requires i <= |w|
    ensures Ways(p, w, Atom(SaveInst(x)), i, c) == [Way(i, Put(c, x, i))]
  {}

  lemma ClassAgrees(p: Program, w: Text, s: set<Byte>, t: nat)
    requires TableAt(p, SetsOf(Class(s, false)), t)
    ensures Agree(p, w, Cls(t), Class(s, false))
  {
    TableEntry(p.sets, t, SetsOf(Class(s, false)), 0);
    forall i: nat, c: Caps | i <= |w| ensures Ways(p, w, Cls(t), i, c) == InOrder(Class(s, false), w, i, c) {
      ClsWays(p, w, t, i, c);
      if i < |w| && w[i] in s { assert Span(i, c, i + 1, c) in Denote(Class(s, false), w); }
    }
  }

  lemma ByteAgrees(p: Program, w: Text, b: Byte)
    ensures Agree(p, w, Atom(CharInst(b)), Char(b))
  {
    forall i: nat, c: Caps | i <= |w| ensures Ways(p, w, Atom(CharInst(b)), i, c) == InOrder(Char(b), w, i, c) {
      ByteWays(p, w, b, i, c);
      ByteLeaf(w, b, i, c);
      hide Ways, Leaf, If;
    }
  }

  lemma ByteWays(p: Program, w: Text, b: Byte, i: nat, c: Caps)
    requires i <= |w|
    ensures Ways(p, w, Atom(CharInst(b)), i, c) == If(i < |w| && w[i] == b, Way(i + 1, c))
  {}

  lemma ByteLeaf(w: Text, b: Byte, i: nat, c: Caps)
    requires i <= |w|
    ensures Leaf(Char(b), w, i, c) == If(i < |w| && w[i] == b, Way(i + 1, c))
  {
    if i < |w| && w[i] == b { assert Span(i, c, i + 1, c) in Denote(Char(b), w); }
  }

  lemma EmptyAgrees(p: Program, w: Text, bol: bool, eol: bool, t: nat)
    ensures Agree(p, w, Lower(Empty(bol, eol), t), Empty(bol, eol))
  {
    hide Ways, Leaf;
    var x, y := if bol then Atom(Blank(OpBol)) else Nil, if eol then Atom(Blank(OpEol)) else Nil;
    forall i: nat, c: Caps | i <= |w| ensures Ways(p, w, Seq(x, y), i, c) == InOrder(Empty(bol, eol), w, i, c) {
      SeqWays(p, w, x, y, i, c);
      BolWays(p, w, bol, i, c);
      EolWays(p, w, eol, i, c);
      if bol ==> i == 0 { OneEach(p, w, y, Way(i, c), i); }
      EmptyLeaf(w, bol, eol, i, c);
    }
  }

  lemma BolWays(p: Program, w: Text, bol: bool, i: nat, c: Caps)
    requires i <= |w|
    ensures Ways(p, w, if bol then Atom(Blank(OpBol)) else Nil, i, c) == If(bol ==> i == 0, Way(i, c))
  {}

  lemma EolWays(p: Program, w: Text, eol: bool, i: nat, c: Caps)
    requires i <= |w|
    ensures Ways(p, w, if eol then Atom(Blank(OpEol)) else Nil, i, c) == If(eol ==> i == |w|, Way(i, c))
  {}

  lemma EmptyLeaf(w: Text, bol: bool, eol: bool, i: nat, c: Caps)
    requires i <= |w|
    ensures Leaf(Empty(bol, eol), w, i, c) == If((bol ==> i == 0) && (eol ==> i == |w|), Way(i, c))
  {
    if (bol ==> i == 0) && (eol ==> i == |w|) { assert Span(i, c, i, c) in Denote(Empty(bol, eol), w); }
  }

  /* -------------------------------------------------------- the match found */

  /** The first match, in the tree's order, of the starts from `from` on. */
  ghost function FirstMatch(n: Node, w: Text, slots: nat, from: nat): Option<Caps>
    decreases |w| + 1 - from
  {
    if from > |w| then None
    else
      var ws := InOrder(n, w, from, Put(Blanks(slots), 0, from));
      if ws == [] then FirstMatch(n, w, slots, from + 1) else Some(Put(ws[0].caps, 1, ws[0].at))
  }

  lemma {:induction false} FirstIsFirst(n: Node, w: Text, slots: nat, from: nat)
    ensures FirstInOrder(n, w, slots, from) == FirstMatch(n, w, slots, from)
    decreases |w| + 1 - from
  {
    hide Ways, InOrder, Lower, Compiled;
    if from <= |w| {
      L.TableFits(n);
      TreeOrder(Compiled(n), w, n, 0);
      AgreeAt(Compiled(n), w, Lower(n, 0), n, from, Put(Blanks(slots), 0, from));
      FirstIsFirst(n, w, slots, from + 1);
    }
  }

  /** Where no loop's body matches the empty text, the match preferred is the first in the tree's order. */
  lemma PreferredIsFirst(n: Node, w: Text, slots: nat, from: nat)
    requires RegexLoops.EveryRoundTakes(n)
    ensures FirstPreferred(n, w, slots, from) == FirstMatch(n, w, slots, from)
  {
    hide FirstPreferred, FirstInOrder, FirstMatch, LoopsTake, RegexLoops.EveryRoundTakes;
    RegexLoops.LoopsTakeExact(n);
    PreferredInOrder(n, w, slots, from);
    FirstIsFirst(n, w, slots, from);
  }
}
