/** Decimals as text (runtime/src/dec.c): what a text reads as, and that what is printed reads back. */
module DecimalText {
  import opened Options
  import opened Bytes
  import opened DecimalDigits
  import opened DecimalKernels
  import opened DecimalValue
  import opened DecimalOps
  import opened DecimalArith

  const MAX_EXP := 999999999

  /** A sign, coefficient digits as written, and an exponent. */
  datatype Reading = Reading(neg: bool, digits: seq<int>, exp: int)

  /** The number it stands for. */
  ghost function Number(r: Reading): real { Times(Signed(r.neg, Val(r.digits)), r.exp) }

  /* -------------------------------------------------------- what a text reads as */

  predicate IsExp(c: Byte) { c == SMALL_E || c == LARGE_E }

  function AfterBlanks(s: Text): Text {
    if s != [] && (s[0] == SPACE || s[0] == TAB) then AfterBlanks(s[1..]) else s
  }

  predicate Signs(s: Text) { s != [] && (s[0] == PLUS || s[0] == MINUS) }

  function AfterSign(s: Text): Text { if Signs(s) then s[1..] else s }

  predicate Negative(s: Text) { s != [] && s[0] == MINUS }

  /** Where the exponent starts. */
  function ExpMark(s: Text): (e: nat)
    ensures e <= |s| && (e < |s| ==> IsExp(s[e])) && forall i | 0 <= i < e :: !IsExp(s[i])
  {
    if s == [] || IsExp(s[0]) then 0 else 1 + ExpMark(s[1..])
  }

  /** Digits with at most one point; underscores do not count. */
  datatype Mantissa = Mantissa(digits: seq<int>, frac: nat, dot: bool)

  function Scan(s: Text): (m: Option<Mantissa>)
    ensures m.Some? ==> Digits(m.value.digits)
  {
    if s == [] then Some(Mantissa([], 0, false))
    else
      var c := s[|s| - 1];
      match Scan(s[..|s| - 1])
      case None => None
      case Some(m) =>
        if c == DOT then if m.dot then None else Some(m.(dot := true))
        else if c == UNDERSCORE then Some(m)
        else if !IsDigit(c) then None
        else Some(Mantissa(m.digits + [c - DIGIT0], m.frac + if m.dot then 1 else 0, m.dot))
  }

  predicate IsSpace(c: Byte) { c == SPACE || TAB <= c <= TAB + 4 }

  function AfterSpaces(s: Text): Text { if s != [] && IsSpace(s[0]) then AfterSpaces(s[1..]) else s }

  predicate AllDigits(s: Text) { forall i | 0 <= i < |s| :: IsDigit(s[i]) }

  function DigitsOf(s: Text): (ds: seq<int>)
    requires AllDigits(s)
    ensures Digits(ds) && |ds| == |s|
  {
    seq(|s|, i requires 0 <= i < |s| => s[i] - DIGIT0)
  }

  /** strtoll on all of s, before it saturates. */
  function Whole(s: Text): Option<int> {
    var t := AfterSpaces(s);
    var u := AfterSign(t);
    if u == [] || !AllDigits(u) then None else Some(Signed(Negative(t), Val(DigitsOf(u))))
  }

  predicate Accepted(x: Option<int>, m: Option<Mantissa>) {
    x.Some? && -MAX_EXP <= x.value <= MAX_EXP && m.Some? && m.value.digits != [] && x.value - m.value.frac >= -MAX_EXP
  }

  function Exponent(t: Text): Option<int> {
    var e := ExpMark(t);
    if e < |t| then Whole(t[e + 1..]) else Some(0)
  }

  /** What parse_into makes of a text, or nothing. */
  function Read(text: Text): (r: Option<Reading>)
    ensures r.Some? ==> Digits(r.value.digits) && r.value.digits != []
  {
    var s := AfterBlanks(text);
    var t := AfterSign(s);
    var x, m := Exponent(t), Scan(t[..ExpMark(t)]);
    if Accepted(x, m) then Some(Reading(Negative(s), m.value.digits, x.value - m.value.frac)) else None
  }

  lemma {:induction false} BlanksFrom(s: Text, i: nat)
    requires i <= |s| && forall j | 0 <= j < i :: s[j] == SPACE || s[j] == TAB
    requires i < |s| ==> s[i] != SPACE && s[i] != TAB
    ensures AfterBlanks(s) == s[i..]
  {
    if i > 0 { BlanksFrom(s[1..], i - 1); }
  }

  lemma {:induction false} MarkAt(s: Text, e: nat)
    requires e <= |s| && (e < |s| ==> IsExp(s[e])) && forall i | 0 <= i < e :: !IsExp(s[i])
    ensures ExpMark(s) == e
  {
    if e > 0 { MarkAt(s[1..], e - 1); }
  }

  lemma ReadIs(text: Text, t: Text, e: nat, x: Option<int>, m: Option<Mantissa>)
    requires AfterBlanks(text) == text && AfterSign(text) == t && ExpMark(t) == e
    requires Exponent(t) == x && Scan(t[..e]) == m
    ensures Read(text) == if Accepted(x, m) then
                            Some(Reading(Negative(text), m.value.digits, x.value - m.value.frac))
                          else None
  {}

  /** parse_into */
  method ParseInto(text: Text) returns (r: Option<Reading>)
    ensures r == Read(text)
  {
    hide Scan, Whole, AfterBlanks, ExpMark;
    var i := 0;
    while i < |text| && (text[i] == SPACE || text[i] == TAB)
      invariant i <= |text| && forall j | 0 <= j < i :: text[j] == SPACE || text[j] == TAB
    {
      i := i + 1;
    }
    BlanksFrom(text, i);
    var s := text[i..];
    var neg := Negative(s);
    var t := AfterSign(s);
    var e := 0;
    while e < |t| && !IsExp(t[e])
      invariant e <= |t| && forall j | 0 <= j < e :: !IsExp(t[j])
    {
      e := e + 1;
    }
    MarkAt(t, e);
    var exp := 0;
    if e < |t| {
      var x := Whole(t[e + 1..]);
      if x.None? || x.value > MAX_EXP || x.value < -MAX_EXP { return None; }
      exp := x.value;
    }
    var digits, frac, dot := ScanAll(t[..e]);
    if frac < 0 || digits == [] || exp - frac < -MAX_EXP { return None; }
    return Some(Reading(neg, digits, exp - frac));
  }

  /** The loop over the mantissa; a negative count says that it is none. */
  method ScanAll(s: Text) returns (digits: seq<int>, frac: int, dot: bool)
    ensures Scan(s).None? ==> frac < 0
    ensures Scan(s).Some? ==> frac >= 0 && Scan(s).value == Mantissa(digits, frac, dot)
  {
    digits, frac, dot := [], 0, false;
    for i := 0 to |s|
      invariant frac >= 0 && Scan(s[..i]) == Some(Mantissa(digits, frac, dot))
    {
      assert s[..i + 1][..i] == s[..i];
      if s[i] == DOT {
        if dot {
          ScanStuck(s, i + 1);
          return digits, -1, dot;
        }
        dot := true;
      } else if s[i] != UNDERSCORE {
        if !IsDigit(s[i]) {
          ScanStuck(s, i + 1);
          return digits, -1, dot;
        }
        digits := digits + [s[i] - DIGIT0];
        if dot { frac := frac + 1; }
      }
    }
    assert s[..|s|] == s;
  }

  lemma {:induction false} ScanStuck(s: Text, i: nat)
    requires i <= |s| && Scan(s[..i]).None?
    ensures Scan(s).None?
  {
    if i < |s| {
      assert s[..|s| - 1][..i] == s[..i];
      ScanStuck(s[..|s| - 1], i);
    } else {
      assert s[..i] == s;
    }
  }

  /** vl_dec_parse and vl_dec_try_parse. */
  method Parse(text: Text) returns (d: Option<Dec>)
    ensures d.Some? <==> Read(text).Some?
    ensures d.Some? ==> Good(d.value) && Value(d.value) == Number(Read(text).value)
    ensures d.Some? && Lean(Read(text).value.digits) && Val(Read(text).value.digits) != 0 ==>
              d.value == Dec(Read(text).value.neg, Read(text).value.digits, Read(text).value.exp)
  {
    var r := ParseInto(text);
    if r.None? { return None; }
    var made := Make(r.value.neg, r.value.digits, r.value.exp);
    return Some(made);
  }

  /* -------------------------------------------------------- texts that are printed */

  function Chars(ds: seq<int>): (s: Text)
    requires Digits(ds)
    ensures |s| == |ds| && AllDigits(s) && DigitsOf(s) == ds
  {
    seq(|ds|, i requires 0 <= i < |ds| => ds[i] + DIGIT0)
  }

  function SignText(neg: bool): Text { if neg then [MINUS] else [] }

  /** %d of a natural number. */
  function DigitString(n: nat): (ds: seq<int>)
    ensures Digits(ds) && |ds| > 0 && Val(ds) == n
  {
    if n < 10 then
      ValOne(n);
      [n]
    else
      var ds := DigitString(n / 10) + [n % 10];
      assert ds[..|ds| - 1] == DigitString(n / 10);
      ds
  }

  /** A mantissa as printed: digits, and perhaps a point and more. */
  function Printed(x: seq<int>, y: seq<int>): Text
    requires Digits(x) && Digits(y)
  {
    Chars(x) + if y == [] then [] else [DOT] + Chars(y)
  }

  lemma ScanDigit(s: Text, d: int)
    requires 0 <= d <= 9 && Scan(s).Some?
    ensures var m := Scan(s).value;
      Scan(s + [d + DIGIT0]) == Some(Mantissa(m.digits + [d], m.frac + (if m.dot then 1 else 0), m.dot))
  {
    var t := s + [d + DIGIT0];
    assert t[..|t| - 1] == s;
  }

  lemma {:induction false} ScanDigits(s: Text, ds: seq<int>)
    requires Digits(ds) && Scan(s).Some?
    ensures var m := Scan(s).value;
      Scan(s + Chars(ds)) == Some(Mantissa(m.digits + ds, m.frac + (if m.dot then |ds| else 0), m.dot))
    decreases |ds|
  {
    hide Scan;
    if ds == [] {
      assert s + Chars(ds) == s && Scan(s).value.digits + [] == Scan(s).value.digits;
    } else {
      var n := |ds| - 1;
      ScanDigits(s, ds[..n]);
      ScanDigit(s + Chars(ds[..n]), ds[n]);
      assert s + Chars(ds) == (s + Chars(ds[..n])) + [ds[n] + DIGIT0];
      assert Scan(s).value.digits + ds == (Scan(s).value.digits + ds[..n]) + [ds[n]];
    }
  }

  lemma ScanDot(s: Text)
    requires Scan(s).Some? && !Scan(s).value.dot
    ensures Scan(s + [DOT]) == Some(Scan(s).value.(dot := true))
  {
    var t := s + [DOT];
    assert t[..|t| - 1] == s;
  }

  lemma ScanWhole(x: seq<int>)
    requires Digits(x)
    ensures Scan(Chars(x)) == Some(Mantissa(x, 0, false))
  {
    var none: Text := [];
    assert Scan(none) == Some(Mantissa([], 0, false));
    hide Scan, Chars;
    ScanDigits(none, x);
    assert none + Chars(x) == Chars(x) && [] + x == x;
  }

  lemma ScanPrinted(x: seq<int>, y: seq<int>)
    requires Digits(x) && Digits(y)
    ensures Scan(Printed(x, y)) == Some(Mantissa(x + y, |y|, y != []))
  {
    hide Scan, Chars;
    ScanWhole(x);
    if y == [] {
      assert Printed(x, y) == Chars(x) && x + y == x;
    } else {
      var s := Chars(x) + [DOT];
      ScanDot(Chars(x));
      ScanDigits(s, y);
      assert Printed(x, y) == s + Chars(y);
    }
  }

  /** A printed number without an exponent. */
  lemma ReadPlain(neg: bool, x: seq<int>, y: seq<int>)
    requires Digits(x) && Digits(y) && x != []
    ensures Read(SignText(neg) + Printed(x, y))
         == if |y| <= MAX_EXP then Some(Reading(neg, x + y, -|y|)) else None
  {
    var t := Printed(x, y);
    Starts(neg, t);
    NoMark(x, y);
    MarkAt(t, |t|);
    assert t[..|t|] == t;
    ScanPrinted(x, y);
    hide Read, Scan, ExpMark, AfterBlanks, AfterSign, Printed;
    ReadIs(SignText(neg) + t, t, |t|, Some(0), Scan(t));
  }

  lemma NoMark(x: seq<int>, y: seq<int>)
    requires Digits(x) && Digits(y)
    ensures forall i | 0 <= i < |Printed(x, y)| :: !IsExp(Printed(x, y)[i])
  {}

  /** A sign, and then no blank and no second sign. */
  lemma Starts(neg: bool, t: Text)
    requires t != [] && IsDigit(t[0])
    ensures var s := SignText(neg) + t;
      AfterBlanks(s) == s && AfterSign(s) == t && (Negative(s) <==> neg)
  {}

  function ExpText(adj: int): Text {
    [LARGE_E] + (if adj < 0 then [MINUS] else [PLUS]) + Chars(DigitString(if adj < 0 then -adj else adj))
  }

  lemma ExpReads(adj: int)
    ensures Whole(ExpText(adj)[1..]) == Some(adj)
  {
    var sign: Text := if adj < 0 then [MINUS] else [PLUS];
    var u := Chars(DigitString(if adj < 0 then -adj else adj));
    assert ExpText(adj)[1..] == sign + u;
    assert AfterSpaces(sign + u) == sign + u;
    assert (sign + u)[1..] == u;
  }

  lemma SciParts(p: Text, adj: int)
    requires forall i | 0 <= i < |p| :: !IsExp(p[i])
    ensures var t := p + ExpText(adj);
      ExpMark(t) == |p| && t[..|p|] == p && Exponent(t) == Some(adj)
  {
    var t := p + ExpText(adj);
    var x := ExpText(adj);
    ExpReads(adj);
    hide Whole, ExpMark, DigitString;
    assert IsExp(x[0]);
    MarkAt(t, |p|);
    assert t[..|p|] == p && t[|p| + 1..] == x[1..];
  }

  /** A printed number with one. */
  lemma ReadScientific(neg: bool, x: seq<int>, y: seq<int>, adj: int)
    requires Digits(x) && Digits(y) && x != []
    ensures Read(SignText(neg) + (Printed(x, y) + ExpText(adj)))
         == if -MAX_EXP <= adj <= MAX_EXP && adj - |y| >= -MAX_EXP then Some(Reading(neg, x + y, adj - |y|)) else None
  {
    hide Read, Scan, ExpMark, AfterBlanks, AfterSign, Printed, ExpText, Exponent, SignText, Negative;
    var p, t := Printed(x, y), Printed(x, y) + ExpText(adj);
    NoMark(x, y);
    PrintedStarts(x, y);
    ScanPrinted(x, y);
    Starts(neg, t);
    SciParts(p, adj);
    ReadIs(SignText(neg) + t, t, |p|, Some(adj), Scan(p));
  }

  lemma PrintedStarts(x: seq<int>, y: seq<int>)
    requires Digits(x) && Digits(y) && x != []
    ensures Printed(x, y) != [] && IsDigit(Printed(x, y)[0])
  {}

  /* -------------------------------------------------------- printing */

  /** The exponents that a text may have. */
  predicate InRange(d: Dec) { d.exp >= -MAX_EXP && (d.exp <= 0 || d.exp + |d.ds| - 1 <= MAX_EXP) }

  /** The text reads as the number, exactly when its exponents are those a text may have. */
  ghost predicate Prints(n: Dec, out: Text) {
    (Read(out).Some? <==> InRange(n)) && (Read(out).Some? ==> Number(Read(out).value) == Value(n))
  }

  lemma PlainBack(n: Dec, x: seq<int>, y: seq<int>)
    requires Good(n) && Digits(x) && Digits(y) && x != [] && |y| == -n.exp && Val(x + y) == Val(n.ds)
    ensures Prints(n, SignText(n.neg) + Printed(x, y))
  {
    hide Read, Printed, SignText;
    ReadPlain(n.neg, x, y);
  }

  lemma WholeBack(n: Dec)
    requires Good(n) && n.exp == 0
    ensures Prints(n, SignText(n.neg) + Chars(n.ds))
  {
    assert n.ds + [] == n.ds && Printed(n.ds, []) == Chars(n.ds);
    PlainBack(n, n.ds, []);
  }

  lemma PointBack(n: Dec, point: nat)
    requires Good(n) && n.exp < 0 && point == |n.ds| + n.exp && point > 0
    ensures Prints(n, SignText(n.neg) + (Chars(n.ds[..point]) + ([DOT] + Chars(n.ds[point..]))))
  {
    assert n.ds[..point] + n.ds[point..] == n.ds;
    PlainBack(n, n.ds[..point], n.ds[point..]);
  }

  lemma SmallBack(n: Dec, zeros: seq<int>)
    requires Good(n) && n.exp < 0 && zeros == seq(|zeros|, _ => 0) && |zeros| + |n.ds| == -n.exp
    ensures Prints(n, SignText(n.neg) + (Chars([0]) + ([DOT] + Chars(zeros + n.ds))))
  {
    assert [0] + (zeros + n.ds) == seq(|zeros| + 1, _ => 0) + n.ds;
    LeadingZeros(|zeros| + 1, n.ds);
    PlainBack(n, [0], zeros + n.ds);
  }

  lemma LeadingZeros(k: nat, ds: seq<int>)
    ensures Val(seq(k, _ => 0) + ds) == Val(ds)
  {
    ValStrip(seq(k, _ => 0) + ds, k);
    assert (seq(k, _ => 0) + ds)[k..] == ds;
  }

  lemma LongBack(n: Dec, zeros: seq<int>)
    requires Good(n) && n.exp > 0 && zeros == seq(n.exp, _ => 0) && n.exp + |n.ds| - 1 <= MAX_EXP
    ensures Prints(n, SignText(n.neg) + Chars(n.ds + zeros))
  {
    var ds := n.ds + zeros;
    Padded(n.ds, n.exp);
    Aligned(n, n.exp);
    assert Digits(ds) && ds + [] == ds && Printed(ds, []) == Chars(ds);
    hide Read, Printed, SignText, Val, Chars, Times;
    ReadPlain(n.neg, ds, []);
  }

  lemma FirstAndRest(ds: seq<int>)
    requires Digits(ds) && |ds| > 0
    ensures Printed(ds[..1], ds[1..]) == Chars(ds[..1]) + if |ds| > 1 then [DOT] + Chars(ds[1..]) else []
    ensures ds[..1] + ds[1..] == ds
  {}

  lemma SciBack(n: Dec)
    requires Good(n) && (n.exp > 0 || n.exp + |n.ds| - 1 < -6)
    ensures Prints(n, SignText(n.neg) + ((Chars(n.ds[..1]) + if |n.ds| > 1 then [DOT] + Chars(n.ds[1..]) else [])
                                         + ExpText(n.exp + |n.ds| - 1)))
  {
    hide Read, Printed, SignText, Val, Chars, ExpText, Times;
    FirstAndRest(n.ds);
    ReadScientific(n.neg, n.ds[..1], n.ds[1..], n.exp + |n.ds| - 1);
  }

  /** The three notations: plain for a short number, with its zeros for a long whole one, and else
   *  scientific. */
  function Shown(n: Dec): Text
    requires Good(n)
  {
    var nd := |n.ds|;
    var adj, point := n.exp + nd - 1, nd + n.exp;
    SignText(n.neg)
    + if n.exp <= 0 && adj >= -6 then
        if n.exp == 0 then Chars(n.ds)
        else if point > 0 then Chars(n.ds[..point]) + ([DOT] + Chars(n.ds[point..]))
        else Chars([0]) + ([DOT] + Chars(seq(-point, _ => 0) + n.ds))
      else if n.exp > 0 && adj <= 33 then Chars(n.ds + seq(n.exp, _ => 0))
      else (Chars(n.ds[..1]) + if nd > 1 then [DOT] + Chars(n.ds[1..]) else []) + ExpText(adj)
  }

  lemma ShownBack(n: Dec)
    requires Good(n)
    ensures Prints(n, Shown(n))
  {
    hide Prints, SignText, Val, Chars, ExpText;
    var nd := |n.ds|;
    var adj, point := n.exp + nd - 1, nd + n.exp;
    if n.exp <= 0 && adj >= -6 {
      if n.exp == 0 { WholeBack(n); } else if point > 0 { PointBack(n, point); } else {
        SmallBack(n, seq(-point, _ => 0));
      }
    } else if n.exp > 0 && adj <= 33 {
      LongBack(n, seq(n.exp, _ => 0));
    } else {
      SciBack(n);
    }
  }

  /** vl_dec_str.  What is printed reads back as the number it was printed from, exactly when its
   *  exponents, the trailing zeros behind the point gone, are those a text may have. */
  method Str(d: Dec) returns (out: Text)
    requires Good(d)
    ensures Good(Normalized(d)) && out == Shown(Normalized(d))
    ensures Read(out).Some? <==> InRange(Normalized(d))
    ensures InRange(d) ==> Read(out).Some?
    ensures Read(out).Some? ==> Number(Read(out).value) == Value(d)
  {
    hide Read, SignText, Val, Chars, ExpText, Value, Number;
    var n := Normalize(d);
    ShownBack(n);
    var nd := |n.ds|;
    var adj := n.exp + nd - 1;
    out := SignText(n.neg);
    if n.exp <= 0 && adj >= -6 {
      var point := nd + n.exp;
      if n.exp == 0 {
        out := out + Chars(n.ds);
      } else if point > 0 {
        out := out + (Chars(n.ds[..point]) + ([DOT] + Chars(n.ds[point..])));
      } else {
        var zeros := seq(-point, _ => 0);
        out := out + (Chars([0]) + ([DOT] + Chars(zeros + n.ds)));
      }
      return;
    }
    if n.exp > 0 && adj <= 33 {
      var zeros := seq(n.exp, _ => 0);
      out := out + Chars(n.ds + zeros);
      return;
    }
    out := out + ((Chars(n.ds[..1]) + if nd > 1 then [DOT] + Chars(n.ds[1..]) else []) + ExpText(adj));
  }

  /* -------------------------------------------------------- a number that does not read back */

  /** 12e999999999 */
  const FAR: Text := [DIGIT0 + 1, DIGIT0 + 2, SMALL_E] + Chars(Nines(9))

  /** 1.2E+1000000000 */
  const FARTHER: Text := [DIGIT0 + 1, DOT, DIGIT0 + 2, LARGE_E, PLUS, DIGIT0 + 1] + Chars(seq(9, _ => 0))

  function Nines(n: nat): (ds: seq<int>)
    ensures Digits(ds) && |ds| == n
  {
    seq(n, _ => 9)
  }

  lemma {:induction false} NinesValue(n: nat)
    ensures Val(Nines(n)) == Pow10(n) - 1
  {
    if n > 0 {
      assert Nines(n)[..n - 1] == Nines(n - 1);
      NinesValue(n - 1);
    }
  }

  lemma FarReads()
    ensures Read(FAR) == Some(Reading(false, [1, 2], MAX_EXP))
  {
    assert FAR[..2] == Chars([1, 2]);
    assert FAR[3..] == Chars(Nines(9));
    MarkAt(FAR, 2);
    ScanWhole([1, 2]);
    NinesValue(9);
    assert Pow10(9) == 1000000000;
    assert Whole(FAR[3..]) == Some(MAX_EXP);
    hide Read, Scan, Whole, Val, Chars;
    ReadIs(FAR, FAR, 2, Some(MAX_EXP), Some(Mantissa([1, 2], 0, false)));
  }

  lemma {:induction false} PowerString(n: nat)
    ensures DigitString(Pow10(n)) == [1] + seq(n, _ => 0)
  {
    if n > 0 {
      PowerString(n - 1);
      assert [1] + seq(n, _ => 0) == ([1] + seq(n - 1, _ => 0)) + [0];
    }
  }

  lemma FarShown(d: Dec)
    requires d == Dec(false, [1, 2], MAX_EXP)
    ensures Good(d) && Normalized(d) == d && !InRange(d) && Shown(d) == FARTHER
  {
    assert Val([1, 2]) == 12 by { assert [1, 2][..1] == [1]; }
    FarExponent();
    assert [1, 2][..1] == [1] && [1, 2][1..] == [2];
    hide ExpText, Val;
    assert Shown(d) == (Chars([1]) + ([DOT] + Chars([2]))) + ExpText(1000000000);
  }

  lemma FarExponent()
    ensures ExpText(1000000000) == [LARGE_E, PLUS, DIGIT0 + 1] + Chars(seq(9, _ => 0))
  {
    PowerString(9);
    assert Pow10(9) == 1000000000;
    hide DigitString;
    assert ExpText(1000000000) == [LARGE_E] + [PLUS] + Chars([1] + seq(9, _ => 0));
  }

  /** A text that is accepted, and whose number prints as a text that is refused. */
  method PrintsUnreadable() returns (d: Dec, out: Text)
    ensures Read(FAR).Some? && Value(d) == Number(Read(FAR).value) && d == Dec(false, [1, 2], MAX_EXP)
    ensures out == FARTHER && Read(out).None?
  {
    hide Read, Value, Number, Shown;
    FarReads();
    var parsed := Parse(FAR);
    d := parsed.value;
    FarShown(d);
    out := Str(d);
  }

  /* -------------------------------------------------------- a fixed number of places */

  /** A text with so many digits after the point, and before it no zeros but one. */
  ghost predicate HasPlaces(out: Text, places: nat) {
    exists neg, x, y :: Shape(out, places, neg, x, y)
  }

  ghost predicate Shape(out: Text, places: nat, neg: bool, x: seq<int>, y: seq<int>) {
    Lean(x) && Digits(y) && |y| == places && out == SignText(neg) + Printed(x, y)
  }

  /** vl_dec_fixed: so many digits after the point, and it reads back as the number rounded
   *  half-even there. */
  method Fixed(d: Dec, places: int) returns (out: Text)
    requires Good(d) && places >= 0
    ensures HasPlaces(out, places)
    ensures Read(out).Some? <==> places <= MAX_EXP
    ensures Read(out).Some? ==> IsHalfEven(Value(d), -places, Number(Read(out).value))
  {
    hide Read, SignText, Val, Chars, Printed, IsHalfEven, Value, Number, HasPlaces;
    var r := Round(d, places);
    var x := r;
    if r.exp > -places {
      x := Scale(r, r.exp + places);
    }
    ZeroForm(r);
    ZeroForm(x);
    RoundedAt(d, places, r, x);
    var neg := x.neg && x != Dec(false, [0], 0);
    out := SignText(neg);
    if places == 0 {
      out := out + Chars(x.ds);
      FixedWhole(d, x);
      return;
    }
    var padded := Pad(x.ds, places);
    var point := |padded| - places;
    out := out + (Chars(padded[..point]) + ([DOT] + Chars(padded[point..])));
    FixedPoint(d, places, x, padded, point);
  }

  /** Zeros before the digits, so that one digit is left before the point. */
  method Pad(ds: seq<int>, places: int) returns (padded: seq<int>)
    requires Lean(ds) && places > 0
    ensures Digits(padded) && |padded| > places && Val(padded) == Val(ds) && Lean(padded[..|padded| - places])
  {
    var nd := |ds|;
    var zeros: seq<int> := [];
    while |zeros| + nd <= places
      invariant zeros == seq(|zeros|, _ => 0) && |zeros| + nd <= if nd <= places then places + 1 else nd
      decreases places - |zeros|
    {
      zeros := zeros + [0];
    }
    LeadingZeros(|zeros|, ds);
    padded := zeros + ds;
  }

  lemma FixedWhole(d: Dec, x: Dec)
    requires Good(x) && (Val(x.ds) != 0 ==> x.exp == 0) && IsHalfEven(Value(d), 0, Value(x))
    ensures Fixes(d, 0, SignText(x.neg) + Chars(x.ds))
  {
    assert x.ds + [] == x.ds && Printed(x.ds, []) == Chars(x.ds);
    FixedBack(d, 0, x, x.ds, []);
  }

  lemma FixedPoint(d: Dec, places: int, x: Dec, padded: seq<int>, point: nat)
    requires places > 0 && point + places == |padded| && Digits(padded) && Lean(padded[..point])
    requires Good(x) && (Val(x.ds) != 0 ==> x.exp == -places) && IsHalfEven(Value(d), -places, Value(x))
    requires Val(padded) == Val(x.ds)
    ensures Fixes(d, places, SignText(x.neg) + (Chars(padded[..point]) + ([DOT] + Chars(padded[point..]))))
  {
    assert padded[..point] + padded[point..] == padded;
    FixedBack(d, places, x, padded[..point], padded[point..]);
  }

  /** What a text with a fixed number of places is to be. */
  ghost predicate Fixes(d: Dec, places: int, out: Text) {
    places >= 0 && HasPlaces(out, places) && (Read(out).Some? <==> places <= MAX_EXP)
    && (Read(out).Some? ==> IsHalfEven(Value(d), -places, Number(Read(out).value)))
  }

  lemma ZeroForm(d: Dec)
    requires Good(d)
    ensures Val(d.ds) == 0 <==> d == Dec(false, [0], 0)
  {
    ZeroDec(d);
  }

  /** The exponent is brought to the last place, but zero's. */
  lemma RoundedAt(d: Dec, places: int, r: Dec, x: Dec)
    requires places >= 0 && Good(d) && Good(r) && Good(x) && Value(x) == Value(r)
    requires d.exp >= -places ==> r == d
    requires d.exp < -places ==> IsHalfEven(Value(d), -places, Value(r))
    requires Val(x.ds) != 0 ==> x.exp == -places
    ensures IsHalfEven(Value(d), -places, Value(x))
  {
    if d.exp >= -places {
      AtPlace(x, -places);
      assert Near(Value(d), -places, Value(x), Coef(x));
      OnlyHalfEven(Value(d), -places, Value(x));
    }
  }

  lemma AtPlace(x: Dec, e: int)
    requires Good(x) && (Val(x.ds) != 0 ==> x.exp == e)
    ensures Value(x) == Times(Coef(x), e)
  {
    TimesZero(e);
    TimesZero(x.exp);
  }

  lemma FixedBack(d: Dec, places: int, x: Dec, a: seq<int>, b: seq<int>)
    requires places >= 0 && Good(x) && (Val(x.ds) != 0 ==> x.exp == -places) && IsHalfEven(Value(d), -places, Value(x))
    requires Lean(a) && Digits(b) && |b| == places && Val(a + b) == Val(x.ds)
    ensures Fixes(d, places, SignText(x.neg) + Printed(a, b))
  {
    hide Read, SignText, Printed, IsHalfEven;
    assert Shape(SignText(x.neg) + Printed(a, b), places, x.neg, a, b);
    ReadPlain(x.neg, a, b);
    AtPlace(x, -places);
  }
}
