/** What the recursive descent parser of runtime/src/json.c finds in a text: a tree, or where it
 *  fails and why.  It finds a tree exactly where one is written. */
module JsonGrammar {
  import opened Options
  import opened Bytes
  import opened DecimalDigits
  import opened DecimalOps
  import opened DecimalText
  import opened JsonSyntax

  datatype Why =
    | EndOfInput | TooDeep | InvalidValue | LeadingZero | NoFractionDigit | NoExponentDigit | OutOfRange
    | NoString | ControlCharacter | UnknownEscape | TruncatedEscape | BadHexDigit | Unterminated
    | NoColon | NoObjectSeparator | NoArraySeparator | TextAfterValue

  datatype Found<+T> = Got(t: T, next: nat) | Bad(at: nat, why: Why)

  /* -------------------------------------------------------- pieces of text */

  function Skip(s: Text, i: nat): (j: nat)
    requires i <= |s|
    ensures i <= j <= |s| && AllWs(s[i..j]) && (j < |s| ==> !IsWs(s[j]))
    decreases |s| - i
  {
    if i < |s| && IsWs(s[i]) then
      var j := Skip(s, i + 1);
      assert s[i..j] == [s[i]] + s[i + 1..j];
      j
    else i
  }

  function DigitsEnd(s: Text, i: nat): (j: nat)
    requires i <= |s|
    ensures i <= j <= |s| && AllDigits(s[i..j]) && (j < |s| ==> !IsDigit(s[j]))
    decreases |s| - i
  {
    if i < |s| && IsDigit(s[i]) then
      var j := DigitsEnd(s, i + 1);
      assert s[i..j] == [s[i]] + s[i + 1..j];
      j
    else i
  }

  predicate DigitAt(s: Text, i: nat) { i < |s| && IsDigit(s[i]) }
  predicate ByteAt(s: Text, i: nat, c: Byte) { i < |s| && s[i] == c }

  /** w stands at i. */
  predicate Occurs(s: Text, i: nat, w: Text) { i + |w| <= |s| && s[i..i + |w|] == w }

  lemma OccursBoth(s: Text, i: nat, a: Text, b: Text)
    ensures Occurs(s, i, a + b) <==> Occurs(s, i, a) && Occurs(s, i + |a|, b)
  {
    if i + |a| + |b| <= |s| {
      var u, v := s[i..i + |a|], s[i + |a|..i + |a| + |b|];
      assert s[i..i + |a + b|] == u + v;
      assert u + v == a + b ==> u == (a + b)[..|a|] && v == (a + b)[|a|..];
    }
  }

  lemma OccursOne(s: Text, i: nat, c: Byte)
    ensures Occurs(s, i, [c]) <==> ByteAt(s, i, c)
  {}

  /* -------------------------------------------------------- strings */

  function PieceAt(s: Text, i: nat): (r: Found<Piece>)
    requires i < |s| && s[i] != QUOTE
    ensures r.Got? ==> i < r.next <= |s|
  {
    var c := s[i];
    if c < 0x20 then Bad(i, ControlCharacter)
    else if c != BACKSLASH then Got(Plain(c), i + 1)
    else if i + 1 >= |s| then Bad(|s|, Unterminated)
    else if Unescaped(s[i + 1]) >= 0 then Got(Short(s[i + 1]), i + 2)
    else if s[i + 1] != SMALL_U then Bad(i + 1, UnknownEscape)
    else if i + 6 > |s| then Bad(i + 2, TruncatedEscape)
    else if !IsHex(s[i + 2..i + 6]) then Bad(i + 2, BadHexDigit)
    else Got(Code(s[i + 2..i + 6]), i + 6)
  }

  /** The pieces up to the closing quote. */
  function StringAt(s: Text, i: nat): (r: Found<seq<Piece>>)
    requires i <= |s|
    ensures r.Got? ==> i < r.next <= |s|
    decreases |s| - i
  {
    if i == |s| then Bad(i, Unterminated)
    else if s[i] == QUOTE then Got([], i + 1)
    else
      match PieceAt(s, i)
      case Bad(at, why) => Bad(at, why)
      case Got(p, j) =>
        match StringAt(s, j)
        case Bad(at, why) => Bad(at, why)
        case Got(ps, k) => Got([p] + ps, k)
  }

  function QuotedAt(s: Text, i: nat): (r: Found<seq<Piece>>)
    requires i <= |s|
    ensures r.Got? ==> i < r.next <= |s|
  {
    if !ByteAt(s, i, QUOTE) then Bad(i, NoString) else StringAt(s, i + 1)
  }

  lemma PieceSound(s: Text, i: nat)
    requires i < |s| && s[i] != QUOTE && PieceAt(s, i).Got?
    ensures var r := PieceAt(s, i);
      ValidPiece(r.t) && Occurs(s, i, WritePiece(r.t)) && r.next == i + |WritePiece(r.t)|
  {
    match PieceAt(s, i).t
    case Plain(c) => assert s[i..i + 1] == [c];
    case Short(e) => assert s[i..i + 2] == [BACKSLASH, e];
    case Code(h) => assert s[i..i + 6] == [BACKSLASH, SMALL_U] + h;
  }

  lemma PieceComplete(s: Text, i: nat, p: Piece)
    requires ValidPiece(p) && Occurs(s, i, WritePiece(p))
    ensures i < |s| && s[i] != QUOTE && PieceAt(s, i) == Got(p, i + |WritePiece(p)|)
  {
    var w := WritePiece(p);
    assert s[i] == s[i..i + |w|][0];
    match p
    case Plain(c) =>
    case Short(e) => assert s[i + 1] == s[i..i + |w|][1];
    case Code(h) =>
      assert s[i + 1] == s[i..i + |w|][1];
      assert s[i + 2..i + 6] == s[i..i + |w|][2..6] == h;
  }

  lemma {:induction false} StringSound(s: Text, i: nat)
    requires i <= |s| && StringAt(s, i).Got?
    ensures var r := StringAt(s, i);
      ValidPieces(r.t) && Occurs(s, i, WriteRest(r.t)) && r.next == i + |WriteRest(r.t)|
    decreases |s| - i
  {
    if s[i] == QUOTE {
      assert WriteRest([]) == [QUOTE];
    } else {
      PieceSound(s, i);
      var p, j := PieceAt(s, i).t, PieceAt(s, i).next;
      StringSound(s, j);
      var ps := StringAt(s, j).t;
      assert ([p] + ps)[1..] == ps;
      assert WriteRest([p] + ps) == WritePiece(p) + WriteRest(ps);
      OccursBoth(s, i, WritePiece(p), WriteRest(ps));
    }
  }

  lemma {:induction false} StringComplete(s: Text, i: nat, ps: seq<Piece>)
    requires ValidPieces(ps) && Occurs(s, i, WriteRest(ps))
    ensures StringAt(s, i) == Got(ps, i + |WriteRest(ps)|)
    decreases |ps|
  {
    if ps == [] {
      assert WriteRest(ps) == [QUOTE];
      OccursOne(s, i, QUOTE);
    } else {
      var p, rest := ps[0], ps[1..];
      assert WriteRest(ps) == WritePiece(p) + WriteRest(rest);
      OccursBoth(s, i, WritePiece(p), WriteRest(rest));
      PieceComplete(s, i, p);
      StringComplete(s, i + |WritePiece(p)|, rest);
      assert [p] + rest == ps;
    }
  }

  lemma QuotedSound(s: Text, i: nat)
    requires i <= |s| && QuotedAt(s, i).Got?
    ensures var r := QuotedAt(s, i);
      ValidPieces(r.t) && Occurs(s, i, WriteString(r.t)) && r.next == i + |WriteString(r.t)|
  {
    StringSound(s, i + 1);
    OccursOne(s, i, QUOTE);
    OccursBoth(s, i, [QUOTE], WriteRest(QuotedAt(s, i).t));
  }

  lemma QuotedComplete(s: Text, i: nat, ps: seq<Piece>)
    requires ValidPieces(ps) && Occurs(s, i, WriteString(ps))
    ensures QuotedAt(s, i) == Got(ps, i + |WriteString(ps)|)
  {
    OccursBoth(s, i, [QUOTE], WriteRest(ps));
    OccursOne(s, i, QUOTE);
    StringComplete(s, i + 1, ps);
  }

  /* -------------------------------------------------------- numbers */

  /** The digits before the point. */
  function WholeAt(s: Text, i: nat): (r: Found<Text>)
    requires i <= |s|
    ensures r.Got? ==> i < r.next <= |s|
  {
    if !DigitAt(s, i) then Bad(i, InvalidValue)
    else if s[i] == DIGIT0 then if DigitAt(s, i + 1) then Bad(i + 1, LeadingZero) else Got([DIGIT0], i + 1)
    else Got(s[i..DigitsEnd(s, i)], DigitsEnd(s, i))
  }

  function FracAt(s: Text, i: nat): (r: Found<Text>)
    requires i <= |s|
    ensures r.Got? ==> i <= r.next <= |s|
  {
    if !ByteAt(s, i, DOT) then Got([], i)
    else if !DigitAt(s, i + 1) then Bad(i + 1, NoFractionDigit)
    else Got(s[i + 1..DigitsEnd(s, i + 1)], DigitsEnd(s, i + 1))
  }

  function SignEnd(s: Text, i: nat): (j: nat)
    requires i <= |s|
    ensures i <= j <= |s|
  {
    if ByteAt(s, i, PLUS) || ByteAt(s, i, MINUS) then i + 1 else i
  }

  function ExpAt(s: Text, i: nat): (r: Found<ExpPart>)
    requires i <= |s|
    ensures r.Got? ==> i <= r.next <= |s|
  {
    if !ByteAt(s, i, SMALL_E) && !ByteAt(s, i, LARGE_E) then Got(NoExp, i)
    else
      var k := SignEnd(s, i + 1);
      if !DigitAt(s, k) then Bad(k, NoExponentDigit)
      else Got(Exp(s[i], s[i + 1..k], s[k..DigitsEnd(s, k)]), DigitsEnd(s, k))
  }

  /** jnumber's grammar. */
  function NumAt(s: Text, i: nat): (r: Found<Num>)
    requires i <= |s|
    ensures r.Got? ==> i < r.next <= |s|
  {
    var neg := ByteAt(s, i, MINUS);
    match WholeAt(s, if neg then i + 1 else i)
    case Bad(at, why) => Bad(at, why)
    case Got(whole, j) =>
      match FracAt(s, j)
      case Bad(at, why) => Bad(at, why)
      case Got(frac, k) =>
        match ExpAt(s, k)
        case Bad(at, why) => Bad(at, why)
        case Got(exp, l) => Got(Num(neg, whole, frac, exp), l)
  }

  /** No byte of a number follows. */
  predicate NumEnds(s: Text, i: nat) {
    !DigitAt(s, i) && !ByteAt(s, i, DOT) && !ByteAt(s, i, SMALL_E) && !ByteAt(s, i, LARGE_E)
  }

  lemma DigitsEndAt(s: Text, i: nat, w: Text)
    requires Occurs(s, i, w) && AllDigits(w) && !DigitAt(s, i + |w|)
    ensures DigitsEnd(s, i) == i + |w|
    decreases |w|
  {
    if w != [] {
      assert s[i] == s[i..i + |w|][0];
      assert s[i + 1..i + 1 + |w[1..]|] == s[i..i + |w|][1..];
      DigitsEndAt(s, i + 1, w[1..]);
    }
  }

  lemma WholeSound(s: Text, i: nat)
    requires i <= |s| && WholeAt(s, i).Got?
    ensures var r := WholeAt(s, i);
      Occurs(s, i, r.t) && r.next == i + |r.t| && r.t != [] && AllDigits(r.t) && (|r.t| > 1 ==> r.t[0] != DIGIT0)
  {
    if s[i] != DIGIT0 { assert DigitsEnd(s, i) > i; }
  }

  lemma WholeComplete(s: Text, i: nat, w: Text)
    requires Occurs(s, i, w) && w != [] && AllDigits(w) && (|w| > 1 ==> w[0] != DIGIT0) && !DigitAt(s, i + |w|)
    ensures WholeAt(s, i) == Got(w, i + |w|)
  {
    assert s[i] == s[i..i + |w|][0] == w[0];
    DigitsEndAt(s, i, w);
    if w[0] == DIGIT0 { assert w == [DIGIT0]; }
  }

  lemma FracSound(s: Text, i: nat)
    requires i <= |s| && FracAt(s, i).Got?
    ensures var r := FracAt(s, i);
      Occurs(s, i, WriteFrac(r.t)) && r.next == i + |WriteFrac(r.t)| && AllDigits(r.t)
  {
    var r := FracAt(s, i);
    if ByteAt(s, i, DOT) {
      assert DigitsEnd(s, i + 1) > i + 1;
      OccursOne(s, i, DOT);
      OccursBoth(s, i, [DOT], r.t);
    }
  }

  lemma FracComplete(s: Text, i: nat, w: Text)
    requires Occurs(s, i, WriteFrac(w)) && AllDigits(w)
    requires !DigitAt(s, i + |WriteFrac(w)|) && (w == [] ==> !ByteAt(s, i, DOT))
    ensures FracAt(s, i) == Got(w, i + |WriteFrac(w)|)
  {
    if w != [] {
      OccursBoth(s, i, [DOT], w);
      OccursOne(s, i, DOT);
      DigitsEndAt(s, i + 1, w);
      assert s[i + 1] == s[i + 1..i + 1 + |w|][0];
    }
  }

  lemma ExpSound(s: Text, i: nat)
    requires i <= |s| && ExpAt(s, i).Got?
    ensures var r := ExpAt(s, i);
      Occurs(s, i, WriteExp(r.t)) && r.next == i + |WriteExp(r.t)| && ValidExp(r.t)
  {
    var r := ExpAt(s, i);
    if r.t.Exp? {
      var k := SignEnd(s, i + 1);
      SignIs(s, i + 1);
      ExpOccurs(s, i, k, DigitsEnd(s, k));
    } else {
      assert s[i..i] == [];
    }
  }

  lemma ExpOccurs(s: Text, i: nat, k: nat, l: nat)
    requires i < k <= l <= |s|
    ensures var w := [s[i]] + (s[i + 1..k] + s[k..l]);
      Occurs(s, i, w) && l == i + |w|
  {
    hide Occurs;
    OccursSlice(s, i, i + 1);
    OccursSlice(s, i + 1, k);
    OccursSlice(s, k, l);
    assert s[i..i + 1] == [s[i]];
    OccursBoth(s, i + 1, s[i + 1..k], s[k..l]);
    OccursBoth(s, i, [s[i]], s[i + 1..k] + s[k..l]);
  }

  lemma OccursSlice(s: Text, i: nat, j: nat)
    requires i <= j <= |s|
    ensures Occurs(s, i, s[i..j])
  {}

  lemma SignIs(s: Text, i: nat)
    requires i <= |s|
    ensures var sign := s[i..SignEnd(s, i)];
      sign == [] || sign == [PLUS] || sign == [MINUS]
  {}

  lemma ExpComplete(s: Text, i: nat, e: ExpPart)
    requires Occurs(s, i, WriteExp(e)) && ValidExp(e) && NumEnds(s, i + |WriteExp(e)|)
    ensures ExpAt(s, i) == Got(e, i + |WriteExp(e)|)
  {
    if e.Exp? {
      OccursBoth(s, i, [e.mark], e.sign + e.digits);
      OccursOne(s, i, e.mark);
      OccursBoth(s, i + 1, e.sign, e.digits);
      var k := i + 1 + |e.sign|;
      assert s[k] == s[k..k + |e.digits|][0];
      if e.sign != [] { OccursOne(s, i + 1, e.sign[0]); }
      assert SignEnd(s, i + 1) == k;
      DigitsEndAt(s, k, e.digits);
    }
  }

  lemma NumSound(s: Text, i: nat)
    requires i <= |s| && NumAt(s, i).Got?
    ensures var r := NumAt(s, i);
      ValidNum(r.t) && Occurs(s, i, WriteNum(r.t)) && r.next == i + |WriteNum(r.t)|
  {
    hide WholeAt, FracAt, ExpAt, Occurs, ByteAt, WriteFrac, WriteExp, SignText, ValidExp, AllDigits;
    var neg := ByteAt(s, i, MINUS);
    OccursSign(s, i, neg);
    var a := if neg then i + 1 else i;
    var n := NumAt(s, i).t;
    WholeSound(s, a);
    var j := WholeAt(s, a).next;
    FracSound(s, j);
    var k := FracAt(s, j).next;
    ExpSound(s, k);
    OccursBoth(s, j, WriteFrac(n.frac), WriteExp(n.exp));
    OccursBoth(s, a, n.whole, WriteFrac(n.frac) + WriteExp(n.exp));
    OccursBoth(s, i, SignText(neg), n.whole + (WriteFrac(n.frac) + WriteExp(n.exp)));
  }

  lemma OccursSign(s: Text, i: nat, neg: bool)
    requires i <= |s| && (neg ==> ByteAt(s, i, MINUS))
    ensures Occurs(s, i, SignText(neg)) && |SignText(neg)| == if neg then 1 else 0
    ensures neg ==> i < |s|
  {}

  lemma NumComplete(s: Text, i: nat, n: Num)
    requires ValidNum(n) && Occurs(s, i, WriteNum(n)) && NumEnds(s, i + |WriteNum(n)|)
    ensures NumAt(s, i) == Got(n, i + |WriteNum(n)|)
  {
    hide WholeAt, FracAt, ExpAt, Occurs, DigitAt, ByteAt, WriteFrac, WriteExp, SignText;
    var a := i + |SignText(n.neg)|;
    OccursBoth(s, i, SignText(n.neg), n.whole + (WriteFrac(n.frac) + WriteExp(n.exp)));
    OccursBoth(s, a, n.whole, WriteFrac(n.frac) + WriteExp(n.exp));
    var j := a + |n.whole|;
    OccursBoth(s, j, WriteFrac(n.frac), WriteExp(n.exp));
    var k := j + |WriteFrac(n.frac)|;
    AfterFrac(s, k, n.exp);
    AfterWhole(s, j, n.frac);
    FracMissing(s, j, n.frac, n.exp);
    SignAt(s, i, n.neg, n.whole);
    WholeComplete(s, a, n.whole);
    FracComplete(s, j, n.frac);
    ExpComplete(s, k, n.exp);
  }

  lemma FracMissing(s: Text, j: nat, frac: Text, e: ExpPart)
    requires !ByteAt(s, j + |WriteFrac(frac)|, DOT)
    ensures frac == [] ==> !ByteAt(s, j, DOT)
  {}

  lemma SignAt(s: Text, i: nat, neg: bool, whole: Text)
    requires Occurs(s, i, SignText(neg)) && Occurs(s, i + |SignText(neg)|, whole) && whole != [] && AllDigits(whole)
    ensures ByteAt(s, i, MINUS) <==> neg
    ensures |SignText(neg)| == if neg then 1 else 0
  {
    if !neg { assert s[i] == s[i..i + |whole|][0]; }
  }

  lemma AfterFrac(s: Text, k: nat, e: ExpPart)
    requires Occurs(s, k, WriteExp(e)) && ValidExp(e) && NumEnds(s, k + |WriteExp(e)|)
    ensures !DigitAt(s, k) && !ByteAt(s, k, DOT)
  {
    if e.Exp? {
      OccursBoth(s, k, [e.mark], e.sign + e.digits);
      OccursOne(s, k, e.mark);
    }
  }

  lemma AfterWhole(s: Text, j: nat, frac: Text)
    requires Occurs(s, j, WriteFrac(frac)) && !DigitAt(s, j + |WriteFrac(frac)|)
    ensures !DigitAt(s, j)
  {
    if frac != [] {
      OccursBoth(s, j, [DOT], frac);
      OccursOne(s, j, DOT);
    }
  }
}
