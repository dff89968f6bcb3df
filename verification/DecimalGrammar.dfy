/** The texts that decimals are read from, as a grammar: what is read is exactly what is so composed. */
module DecimalGrammar {
  import opened Options
  import opened Bytes
  import opened DecimalDigits
  import opened DecimalValue
  import opened DecimalOps
  import opened DecimalText

  /** Blanks, a sign, figures before and behind a point, and an exponent with space and a sign. */
  datatype Parts = Parts(blanks: Text, sign: Text, whole: Text, frac: Option<Text>, exp: Option<Exponent>)
  datatype Exponent = Exponent(mark: Byte, space: Text, sign: Text, digits: Text)

  predicate Figure(c: Byte) { '0' as int <= c <= '9' as int }

  /** Figures, with underscores anywhere. */
  predicate Figures(s: Text) { forall i | 0 <= i < |s| :: Figure(s[i]) || s[i] == '_' as int }

  /** The figures alone. */
  function Without(s: Text): (ds: seq<int>)
    requires Figures(s)
    ensures Digits(ds)
  {
    if s == [] then []
    else
      var last := s[|s| - 1];
      Without(s[..|s| - 1]) + if last == '_' as int then [] else [last - '0' as int]
  }

  predicate OneSign(s: Text) { s == [] || s == ['+' as int] || s == ['-' as int] }

  predicate Proper(p: Parts) {
    && (forall i | 0 <= i < |p.blanks| :: p.blanks[i] == 32 || p.blanks[i] == 9) && OneSign(p.sign)
    && Figures(p.whole) && (p.frac.Some? ==> Figures(p.frac.value)) && (p.exp.Some? ==> ProperExponent(p.exp.value))
  }

  predicate ProperExponent(e: Exponent) {
    && (e.mark == 'e' as int || e.mark == 'E' as int)
    && (forall i | 0 <= i < |e.space| :: e.space[i] == 32 || 9 <= e.space[i] <= 13) && OneSign(e.sign)
    && e.digits != [] && OnlyFigures(e.digits)
  }

  function Mantissa(p: Parts): Text {
    p.whole + match p.frac case None => [] case Some(f) => ['.' as int] + f
  }

  function Tail(p: Parts): Text {
    match p.exp case None => [] case Some(e) => [e.mark] + (e.space + (e.sign + e.digits))
  }

  function Composed(p: Parts): Text { p.blanks + (p.sign + (Mantissa(p) + Tail(p))) }

  function Behind(p: Parts): (ds: seq<int>)
    requires Proper(p)
    ensures Digits(ds)
  {
    match p.frac case None => [] case Some(f) => Without(f)
  }

  /** The exponent as written. */
  function Power(p: Parts): int
    requires Proper(p)
  {
    match p.exp
    case None => 0
    case Some(e) => var n := Val(PlainDigits(e.digits)); if e.sign == ['-' as int] then -n else n
  }

  predicate OnlyFigures(s: Text) { forall i | 0 <= i < |s| :: Figure(s[i]) }

  function PlainDigits(s: Text): (ds: seq<int>)
    requires OnlyFigures(s)
    ensures Digits(ds) && |ds| == |s|
  {
    seq(|s|, i requires 0 <= i < |s| => s[i] - '0' as int)
  }

  /* -------------------------------------------------------- what is composed is read */

  lemma ScanOn(s: Text, c: Byte)
    requires Scan(s).Some? && (Figure(c) || c == '_' as int || (c == '.' as int && !Scan(s).value.dot))
    ensures var m := Scan(s).value;
      Scan(s + [c]) == Some(
        if c == '.' as int then m.(dot := true)
        else if c == '_' as int then m
        else m.(digits := m.digits + [c - '0' as int], frac := m.frac + if m.dot then 1 else 0))
  {
    var t := s + [c];
    assert t[..|t| - 1] == s && t[|t| - 1] == c;
  }

  lemma {:induction false} ScanFigures(s: Text, f: Text)
    requires Scan(s).Some? && Figures(f)
    ensures var m := Scan(s).value;
      Scan(s + f) == Some(m.(digits := m.digits + Without(f), frac := m.frac + if m.dot then |Without(f)| else 0))
    decreases |f|
  {
    hide Scan;
    var m := Scan(s).value;
    if f == [] {
      assert s + f == s && m.digits + [] == m.digits;
    } else {
      var g, c := f[..|f| - 1], f[|f| - 1];
      ScanFigures(s, g);
      ScanOn(s + g, c);
      assert s + f == (s + g) + [c];
      if c == '_' as int {
        assert Without(f) == Without(g) + [] == Without(g);
      } else {
        assert m.digits + Without(f) == (m.digits + Without(g)) + [c - '0' as int];
      }
    }
  }

  lemma ScanMantissa(p: Parts)
    requires Proper(p)
    ensures Scan(Mantissa(p)).Some?
    ensures Scan(Mantissa(p)).value.digits == Without(p.whole) + Behind(p)
    ensures Scan(Mantissa(p)).value.frac == |Behind(p)|
  {
    var none: Text := [];
    assert Scan(none) == Some(DecimalText.Mantissa([], 0, false));
    hide Scan, Without;
    ScanFigures(none, p.whole);
    assert none + p.whole == p.whole && [] + Without(p.whole) == Without(p.whole);
    if p.frac.Some? {
      ScanOn(p.whole, '.' as int);
      ScanFigures(p.whole + ['.' as int], p.frac.value);
      assert (p.whole + ['.' as int]) + p.frac.value == Mantissa(p);
    } else {
      assert Mantissa(p) == p.whole && Without(p.whole) + [] == Without(p.whole);
    }
  }

  lemma {:induction false} SpacesOver(s: Text, t: Text)
    requires (forall i | 0 <= i < |s| :: s[i] == 32 || 9 <= s[i] <= 13)
    requires (t != [] ==> !(t[0] == 32 || 9 <= t[0] <= 13))
    ensures AfterSpaces(s + t) == t
  {
    if s == [] {
      assert s + t == t;
    } else {
      assert (s + t)[1..] == s[1..] + t;
      SpacesOver(s[1..], t);
    }
  }

  lemma WholeIs(e: Exponent)
    requires ProperExponent(e)
    ensures Whole(e.space + (e.sign + e.digits))
         == Some(var n := Val(PlainDigits(e.digits)); if e.sign == ['-' as int] then -n else n)
  {
    var t := e.sign + e.digits;
    SpacesOver(e.space, t);
    hide AfterSpaces;
    if e.sign == [] { assert t == e.digits; } else { assert t[1..] == e.digits; }
    assert AllDigits(e.digits) && DigitsOf(e.digits) == PlainDigits(e.digits);
  }

  lemma {:induction false} BlanksOver(s: Text, t: Text)
    requires (forall i | 0 <= i < |s| :: s[i] == 32 || s[i] == 9) && (t != [] ==> !(t[0] == 32 || t[0] == 9))
    ensures AfterBlanks(s + t) == t
  {
    if s == [] {
      assert s + t == t;
    } else {
      assert (s + t)[1..] == s[1..] + t;
      BlanksOver(s[1..], t);
    }
  }

  lemma SignOver(sign: Text, t: Text)
    requires OneSign(sign) && (t != [] ==> t[0] != '+' as int && t[0] != '-' as int)
    ensures AfterSign(sign + t) == t && (Negative(sign + t) <==> sign == ['-' as int])
  {
    if sign == [] { assert sign + t == t; } else { assert (sign + t)[1..] == t; }
  }

  /** No mark, sign or blank among a mantissa's bytes. */
  lemma MantissaBytes(p: Parts)
    requires Proper(p)
    ensures forall i | 0 <= i < |Mantissa(p)| ::
      Figure(Mantissa(p)[i]) || Mantissa(p)[i] == '_' as int || Mantissa(p)[i] == '.' as int
  {}

  lemma MarkAndTail(p: Parts)
    requires Proper(p)
    ensures var t := Mantissa(p) + Tail(p);
      ExpMark(t) == |Mantissa(p)| && t[..|Mantissa(p)|] == Mantissa(p) && DecimalText.Exponent(t) == Some(Power(p))
  {
    hide Whole, Mantissa;
    var m, t := Mantissa(p), Mantissa(p) + Tail(p);
    MantissaBytes(p);
    MarkAt(t, |m|);
    if p.exp.Some? {
      var e := p.exp.value;
      WholeIs(e);
      assert t[|m| + 1..] == e.space + (e.sign + e.digits);
    } else {
      assert t == m;
    }
  }

  /** Every text so composed is read, if it has a figure and its exponent is in range, as its figures with
   *  the point moved behind the last. */
  lemma ReadsComposed(p: Parts)
    requires Proper(p)
    ensures var ds, x := Without(p.whole) + Behind(p), Power(p);
      Read(Composed(p)) ==
      if ds != [] && -999999999 <= x <= 999999999 && x - |Behind(p)| >= -999999999 then
        Some(Reading(p.sign == ['-' as int], ds, x - |Behind(p)|))
      else None
  {
    var t := Mantissa(p) + Tail(p);
    MantissaBytes(p);
    FirstByte(p);
    hide Scan, ExpMark, Whole, Mantissa, Tail, AfterBlanks, AfterSign, Without, Behind, Power, Negative,
      DecimalText.Exponent;
    BlanksOver(p.blanks, p.sign + t);
    SignOver(p.sign, t);
    MarkAndTail(p);
    ScanMantissa(p);
  }

  lemma FirstByte(p: Parts)
    requires Proper(p)
    ensures var t := Mantissa(p) + Tail(p);
      && (t != [] ==> t[0] != '+' as int && t[0] != '-' as int && t[0] != 32 && t[0] != 9)
      && (p.sign + t != [] ==> (p.sign + t)[0] != 32 && (p.sign + t)[0] != 9)
  {
    MantissaBytes(p);
    if Mantissa(p) != [] { assert (Mantissa(p) + Tail(p))[0] == Mantissa(p)[0]; }
    if p.sign != [] { assert (p.sign + (Mantissa(p) + Tail(p)))[0] == p.sign[0]; }
  }

  /* -------------------------------------------------------- and nothing else is */

  lemma {:induction false} ScanSplits(s: Text) returns (whole: Text, frac: Option<Text>)
    requires Scan(s).Some?
    ensures Figures(whole) && (frac.Some? ==> Figures(frac.value))
    ensures s == whole + match frac case None => [] case Some(f) => ['.' as int] + f
    ensures Scan(s).value.dot <==> frac.Some?
    decreases |s|
  {
    if s == [] {
      whole, frac := [], None;
    } else {
      var c := s[|s| - 1];
      whole, frac := ScanSplits(s[..|s| - 1]);
      assert s == s[..|s| - 1] + [c];
      if c == '.' as int {
        assert frac.None? && whole + [] == whole;
        frac := Some([]);
      } else if frac.Some? {
        assert whole + (['.' as int] + frac.value) + [c] == whole + (['.' as int] + (frac.value + [c]));
        frac := Some(frac.value + [c]);
      } else {
        assert whole + [] == whole && (whole + [c]) + [] == whole + [c];
        whole := whole + [c];
      }
    }
  }

  lemma {:induction false} SpacesSplit(s: Text) returns (space: Text)
    ensures (forall i | 0 <= i < |space| :: space[i] == 32 || 9 <= space[i] <= 13) && s == space + AfterSpaces(s)
  {
    if s != [] && IsSpace(s[0]) {
      space := SpacesSplit(s[1..]);
      assert s == [s[0]] + (space + AfterSpaces(s[1..])) == ([s[0]] + space) + AfterSpaces(s[1..]);
      space := [s[0]] + space;
    } else {
      space := [];
    }
  }

  lemma {:induction false} BlanksSplit(s: Text) returns (blanks: Text)
    ensures (forall i | 0 <= i < |blanks| :: blanks[i] == 32 || blanks[i] == 9) && s == blanks + AfterBlanks(s)
  {
    if s != [] && (s[0] == SPACE || s[0] == TAB) {
      blanks := BlanksSplit(s[1..]);
      assert s == [s[0]] + (blanks + AfterBlanks(s[1..])) == ([s[0]] + blanks) + AfterBlanks(s[1..]);
      blanks := [s[0]] + blanks;
    } else {
      blanks := [];
    }
  }

  lemma SignSplit(s: Text) returns (sign: Text)
    ensures OneSign(sign) && s == sign + AfterSign(s)
  {
    sign := if Signs(s) then [s[0]] else [];
  }

  lemma WholeSplits(mark: Byte, s: Text) returns (e: Exponent)
    requires Whole(s).Some? && IsExp(mark)
    ensures ProperExponent(e) && e.mark == mark && s == e.space + (e.sign + e.digits)
  {
    var space := SpacesSplit(s);
    var sign := SignSplit(AfterSpaces(s));
    e := Exponent(mark, space, sign, AfterSign(AfterSpaces(s)));
  }

  lemma ReadParts(text: Text)
    requires Read(text).Some?
    ensures var t := AfterSign(AfterBlanks(text));
      var e := ExpMark(t);
      Scan(t[..e]).Some? && (e < |t| ==> Whole(t[e + 1..]).Some? && IsExp(t[e]))
  {
    hide Scan, Whole, AfterBlanks, AfterSign;
  }

  /** A text that is read is so composed. */
  lemma ReadIsComposed(text: Text) returns (p: Parts)
    requires Read(text).Some?
    ensures Proper(p) && Composed(p) == text
  {
    hide *;
    ReadParts(text);
    var s := AfterBlanks(text);
    var t := AfterSign(s);
    var e := ExpMark(t);
    var blanks := BlanksSplit(text);
    var sign := SignSplit(s);
    var whole, frac := ScanSplits(t[..e]);
    if e < |t| {
      var x := WholeSplits(t[e], t[e + 1..]);
      p := Parts(blanks, sign, whole, frac, Some(x));
      Rejoins(t, e);
      Assembled(p, t);
    } else {
      p := Parts(blanks, sign, whole, frac, None);
      assert t[..e] + [] == t;
      Assembled(p, t);
    }
  }

  lemma Assembled(p: Parts, t: Text)
    requires (forall i | 0 <= i < |p.blanks| :: p.blanks[i] == 32 || p.blanks[i] == 9) && OneSign(p.sign)
    requires Figures(p.whole) && (p.frac.Some? ==> Figures(p.frac.value))
    requires (p.exp.Some? ==> ProperExponent(p.exp.value))
    requires (p.whole + match p.frac case None => [] case Some(f) => ['.' as int] + f)
           + (match p.exp case None => [] case Some(e) => [e.mark] + (e.space + (e.sign + e.digits))) == t
    ensures Proper(p) && Composed(p) == p.blanks + (p.sign + t)
  {
    hide ProperExponent, Figures, OneSign;
  }

  lemma Rejoins(t: Text, e: nat)
    requires e < |t|
    ensures t[..e] + ([t[e]] + t[e + 1..]) == t
  {}

  /* -------------------------------------------------------- which notation is printed */

  lemma CharsPlain(ds: seq<int>)
    requires Digits(ds)
    ensures forall i | 0 <= i < |Chars(ds)| :: Figure(Chars(ds)[i])
  {}

  /** A number is printed with an exponent exactly where it is below 0.000001, or has zeros behind its
   *  digits and more than 34 figures before the point; without one, it has a point exactly where it has
   *  places behind it. */
  lemma NotationExact(n: Dec)
    requires Good(n)
    ensures var adj, s := n.exp + |n.ds| - 1, Shown(n);
      && ('E' as int in s <==> (n.exp <= 0 && adj < -6) || (n.exp > 0 && adj > 33))
      && ('E' as int !in s ==>
            ('.' as int in s <==> n.exp < 0)
            && (n.exp < 0 ==> |s| > -n.exp && s[|s| + n.exp - 1] == '.' as int))
      && ('-' as int in s[..1] <==> n.neg)
  {
    var adj := n.exp + |n.ds| - 1;
    if n.exp <= 0 && adj >= -6 {
      if n.exp == 0 { AsWhole(n); } else { Pointed(n); }
    } else if n.exp > 0 && adj <= 33 {
      Filled(n);
    } else {
      Marked(n);
    }
  }

  lemma Front(neg: bool, x: Text)
    requires x != [] && Figure(x[0])
    ensures '-' as int in (SignText(neg) + x)[..1] <==> neg
    ensures forall c | c != '-' as int :: c in SignText(neg) + x <==> c in x
  {}

  lemma FromBehind(neg: bool, x: Text, k: nat)
    requires k < |x|
    ensures |SignText(neg) + x| > k && (SignText(neg) + x)[|SignText(neg) + x| - k - 1] == x[|x| - k - 1]
  {}

  lemma AsWhole(n: Dec)
    requires Good(n) && n.exp == 0
    ensures 'E' as int !in Shown(n) && '.' as int !in Shown(n) && ('-' as int in Shown(n)[..1] <==> n.neg)
  {
    CharsPlain(n.ds);
    Front(n.neg, Chars(n.ds));
  }

  lemma Filled(n: Dec)
    requires Good(n) && n.exp > 0 && n.exp + |n.ds| - 1 <= 33
    ensures 'E' as int !in Shown(n) && '.' as int !in Shown(n) && ('-' as int in Shown(n)[..1] <==> n.neg)
  {
    CharsPlain(n.ds + seq(n.exp, _ => 0));
    Front(n.neg, Chars(n.ds + seq(n.exp, _ => 0)));
  }

  lemma Pointed(n: Dec)
    requires Good(n) && n.exp < 0 && n.exp + |n.ds| - 1 >= -6
    ensures var s := Shown(n);
      && 'E' as int !in s && '.' as int in s && |s| > -n.exp && s[|s| + n.exp - 1] == '.' as int
      && ('-' as int in s[..1] <==> n.neg)
  {
    var x, y := ShownPointed(n);
    hide Shown, Good, Printed;
    CharsPlain(x);
    CharsPlain(y);
    var a, b := Chars(x), Chars(y);
    hide Chars;
    PointAt(a, b);
    Front(n.neg, a + ([DOT] + b));
    FromBehind(n.neg, a + ([DOT] + b), |b|);
  }

  lemma ShownPointed(n: Dec) returns (x: seq<int>, y: seq<int>)
    requires Good(n) && n.exp < 0 && n.exp + |n.ds| - 1 >= -6
    ensures Digits(x) && Digits(y) && x != [] && |y| == -n.exp
    ensures Shown(n) == SignText(n.neg) + (Chars(x) + ([DOT] + Chars(y)))
  {
    var point := |n.ds| + n.exp;
    x := if point > 0 then n.ds[..point] else [0];
    y := if point > 0 then n.ds[point..] else seq(-point, _ => 0) + n.ds;
    hide Chars;
  }

  lemma PointAt(a: Text, b: Text)
    requires a != [] && OnlyFigures(a) && OnlyFigures(b)
    ensures var x := a + ([DOT] + b);
      && x != [] && Figure(x[0]) && 'E' as int !in x && '.' as int in x && |x| > |b| && x[|x| - |b| - 1] == '.' as int
  {
    var x := a + ([DOT] + b);
    assert x[|a|] == DOT;
  }

  lemma Marked(n: Dec)
    requires Good(n)
    requires var adj := n.exp + |n.ds| - 1; !(n.exp <= 0 && adj >= -6) && !(n.exp > 0 && adj <= 33)
    ensures 'E' as int in Shown(n) && ('-' as int in Shown(n)[..1] <==> n.neg)
  {
    var x := Chars(n.ds[..1]) + if |n.ds| > 1 then [DOT] + Chars(n.ds[1..]) else [];
    var y := ExpText(n.exp + |n.ds| - 1);
    assert Shown(n) == SignText(n.neg) + (x + y);
    assert (SignText(n.neg) + (x + y))[|SignText(n.neg)| + |x|] == y[0] == 'E' as int;
    CharsPlain(n.ds[..1]);
    assert x[0] == Chars(n.ds[..1])[0];
  }

  /** Some numbers as they are printed. */
  lemma PointSample()
    ensures Good(Dec(true, [1, 2, 5, 0], -2)) && Shown(Dec(true, [1, 2, 5, 0], -2)) == Ascii("-12.50")
  {
    SampleGood();
    assert [1, 2, 5, 0][..2] == [1, 2] && [1, 2, 5, 0][2..] == [5, 0];
    assert Chars([1, 2]) == [49, 50] && Chars([5, 0]) == [53, 48];
  }

  lemma SmallSample()
    ensures Good(Dec(false, [1], -6)) && Shown(Dec(false, [1], -6)) == Ascii("0.000001")
  {
    SampleGood();
    assert seq(5, _ => 0) + [1] == [0, 0, 0, 0, 0, 1];
    assert Chars([0, 0, 0, 0, 0, 1]) == [48, 48, 48, 48, 48, 49] && Chars([0]) == [48];
  }

  lemma SmallerSample()
    ensures Good(Dec(false, [1], -7)) && Shown(Dec(false, [1], -7)) == Ascii("1E-7")
  {
    SampleGood();
    assert DigitString(7) == [7] && [1][..1] == [1] && Chars([1]) == [49] && Chars([7]) == [55];
    assert ExpText(-7) == ['E' as int, '-' as int, '7' as int];
  }

  lemma ZerosSample()
    ensures Good(Dec(false, [1, 2], 3)) && Shown(Dec(false, [1, 2], 3)) == Ascii("12000")
  {
    SampleGood();
    assert [1, 2] + seq(3, _ => 0) == [1, 2, 0, 0, 0];
    assert Chars([1, 2, 0, 0, 0]) == [49, 50, 48, 48, 48];
  }

  lemma LargeSample()
    ensures Good(Dec(false, [1, 2], 33)) && Shown(Dec(false, [1, 2], 33)) == Ascii("1.2E+34")
  {
    SampleGood();
    assert DigitString(3) == [3] && DigitString(34) == [3, 4] && Chars([3, 4]) == [51, 52];
    assert [1, 2][..1] == [1] && [1, 2][1..] == [2] && Chars([1]) == [49] && Chars([2]) == [50];
    assert ExpText(34) == ['E' as int, '+' as int, '3' as int, '4' as int];
  }

  lemma SampleGood()
    ensures Good(Dec(true, [1, 2, 5, 0], -2)) && Good(Dec(false, [1], -6)) && Good(Dec(false, [1], -7))
    ensures Good(Dec(false, [1, 2], 3)) && Good(Dec(false, [1, 2], 33))
  {
    assert [1, 2, 5, 0][..3][..2] == [1, 2] && [1, 2, 5, 0][..3] == [1, 2, 5] && [1, 2][..1] == [1];
    assert Val([1, 2, 5]) == 125 && Val([1, 2]) == 12 && Val([1]) == 1;
  }
}
