/** Sum, product, quotient and comparison of decimals (runtime/src/dec.c). */
module DecimalArith {
  import opened DecimalDigits
  import opened DecimalKernels
  import opened DecimalValue
  import opened DecimalOps

  /** Both coefficients at one exponent. */
  lemma AtCommon(d: Dec, s: Dec, k: nat, exp: int)
    requires Good(d) && Good(s) && Val(s.ds) == Val(d.ds) * Pow10(k) && exp == d.exp - k
    requires Val(d.ds) != 0 ==> s.neg == d.neg
    requires Val(d.ds) == 0 ==> s == Dec(false, [0], 0)
    ensures Value(d) == Times(Coef(s), exp)
  {
    Aligned(d, k);
    ZeroDec(d);
    ValOne(0);
    hide Val, Pow10, Ten;
    SignedValue(d.neg, Val(s.ds), exp);
    TimesZero(exp);
  }

  /** Two numbers of one exponent added or subtracted by magnitude. */
  method Combine(x: Dec, y: Dec, yneg: bool, exp: int) returns (out: Dec)
    requires Good(x) && Good(y)
    ensures Good(out) && Value(out) == Times(Coef(x) + Signed(yneg, Val(y.ds)), exp)
  {
    hide Val, Pow10, Ten, Times, Value;
    if x.neg == yneg {
      var sum := AddMag(x.ds, y.ds);
      out := Make(x.neg, sum, exp);
    } else {
      var c := CmpMag(x.ds, y.ds);
      if c == 0 {
        ZeroDec(Dec(false, [0], 0));
        TimesZero(exp);
        out := Dec(false, [0], 0);
      } else if c > 0 {
        LeanLength(x.ds, y.ds);
        var diff := SubMag(x.ds, y.ds);
        out := Make(x.neg, diff, exp);
      } else {
        LeanLength(y.ds, x.ds);
        var diff := SubMag(y.ds, x.ds);
        out := Make(yneg, diff, exp);
      }
    }
  }

  /** r is the number x, exact, limited to the digits kept. */
  ghost predicate Rounds(x: real, digits: int, r: Dec) {
    exists exact :: RoundsFrom(x, digits, r, exact)
  }

  ghost predicate RoundsFrom(x: real, digits: int, r: Dec, exact: Dec) {
    Good(exact) && Value(exact) == x && Limited(exact, digits, r)
  }

  /** r is x itself when the digits kept can express x. */
  ghost predicate ExactWhenFits(x: real, digits: int, r: Dec) {
    forall m: int, k: int | x == Times(m, k) && -Pow10(Keep(digits)) < m < Pow10(Keep(digits)) :: Value(r) == x
  }

  lemma RoundsFits(x: real, digits: int, r: Dec, exact: Dec)
    requires Good(exact) && Value(exact) == x && Limited(exact, digits, r)
    ensures Rounds(x, digits, r) && ExactWhenFits(x, digits, r)
  {
    hide Times, Value, Pow10, Limited;
    assert RoundsFrom(x, digits, r, exact);
    forall m: int, k: int | x == Times(m, k) && -Pow10(Keep(digits)) < m < Pow10(Keep(digits)) ensures Value(r) == x {
      LimitedExact(exact, digits, r, m, k);
    }
  }

  /** add_signed, bneg negating b. */
  method AddSigned(a: Dec, b: Dec, bneg: bool, digits: int) returns (r: Dec)
    requires Good(a) && Good(b)
    ensures Good(r)
    ensures Rounds(Value(a) + (if bneg then -Value(b) else Value(b)), digits, r)
    ensures ExactWhenFits(Value(a) + (if bneg then -Value(b) else Value(b)), digits, r)
  {
    hide Val, Pow10, Ten, Times, Value, Rounds, ExactWhenFits;
    var exp := if a.exp < b.exp then a.exp else b.exp;
    var x := Scale(a, a.exp - exp);
    var y := Scale(b, b.exp - exp);
    var yneg := if bneg then !y.neg else y.neg;
    AtCommon(a, x, a.exp - exp, exp);
    AtCommon(b, y, b.exp - exp, exp);
    TimesAdd(Coef(x), Signed(yneg, Val(y.ds)), exp);
    TimesAdd(0, Coef(y), exp);
    TimesAdd(Coef(y), 0, exp);
    NegCoef(y, exp);
    var out := Combine(x, y, yneg, exp);
    r := RoundTo(out, digits);
    RoundsFits(Value(a) + (if bneg then -Value(b) else Value(b)), digits, r, out);
  }

  lemma NegCoef(y: Dec, exp: int)
    ensures Times(Signed(!y.neg, Val(y.ds)), exp) == -Times(Coef(y), exp)
  {
    TimesAdd(Coef(y), 0, exp);
  }

  /** vl_dec_mul */
  method Mul(a: Dec, b: Dec, digits: int) returns (r: Dec)
    requires Good(a) && Good(b)
    ensures Good(r) && Rounds(Value(a) * Value(b), digits, r) && ExactWhenFits(Value(a) * Value(b), digits, r)
  {
    hide Val, Pow10, Ten, Times, Rounds, ExactWhenFits;
    TimesMul(Coef(a), Coef(b), a.exp, b.exp);
    SignRule(a.neg, b.neg, Val(a.ds), Val(b.ds));
    var prod := MulMag(a.ds, b.ds);
    var out := Make(a.neg != b.neg, prod, a.exp + b.exp);
    r := RoundTo(out, digits);
    RoundsFits(Value(a) * Value(b), digits, r, out);
  }

  lemma SignRule(m: bool, n: bool, x: int, y: int)
    ensures Signed(m != n, x * y) == Signed(m, x) * Signed(n, y)
  {
    assert (-x) * y == -(x * y) && x * (-y) == -(x * y) && (-x) * (-y) == x * y;
  }

  function RealSign(x: real): int {
    if x < 0.0 then -1 else if x > 0.0 then 1 else 0
  }

  lemma SignOfTimes(x: int, k: int)
    ensures RealSign(Times(x, k)) == Sign(x)
  {
    TimesOrder(x, 0, k);
    TimesOrder(0, x, k);
    TimesZero(k);
  }

  lemma SignOfCoef(d: Dec)
    requires Good(d)
    ensures Val(d.ds) >= 0
    ensures Sign(Coef(d)) == (if Val(d.ds) == 0 then 0 else if d.neg then -1 else 1)
  {
    ValBound(d.ds);
  }

  /** vl_dec_cmp: the sign of the difference, whatever the exponents. */
  method Cmp(a: Dec, b: Dec) returns (c: int)
    requires Good(a) && Good(b)
    ensures c == RealSign(Value(a) - Value(b))
  {
    SignOfCoef(a);
    SignOfCoef(b);
    SignOfTimes(Coef(a), a.exp);
    SignOfTimes(Coef(b), b.exp);
    ZeroDec(a);
    ZeroDec(b);
    hide Val, Pow10, Ten, Times;
    var za, zb := a == Dec(false, [0], 0), b == Dec(false, [0], 0);
    if za && zb { return 0; }
    var sa := if za then 0 else if a.neg then -1 else 1;
    var sb := if zb then 0 else if b.neg then -1 else 1;
    if sa != sb {
      return if sa < sb then -1 else 1;
    }
    var exp := if a.exp < b.exp then a.exp else b.exp;
    var x := Scale(a, a.exp - exp);
    var y := Scale(b, b.exp - exp);
    AtCommon(a, x, a.exp - exp, exp);
    AtCommon(b, y, b.exp - exp, exp);
    TimesAdd(Coef(x), Coef(y), exp);
    SignOfTimes(Coef(x) - Coef(y), exp);
    c := CmpMag(x.ds, y.ds);
    if a.neg { c := -c; }
  }

  /** y is the multiple of 10^e nearest x, of two equally near the even one: the only such number. */
  ghost predicate IsHalfEven(x: real, e: int, y: real) {
    HalfEven(x, e, y) && forall z: real | HalfEven(x, e, z) :: z == y
  }

  lemma OnlyHalfEven(x: real, e: int, y: real)
    requires HalfEven(x, e, y)
    ensures IsHalfEven(x, e, y)
  {
    hide HalfEven;
    forall z: real | HalfEven(x, e, z) ensures z == y { HalfEvenOne(x, e, z, y); }
  }

  /** vl_dec_round */
  method Round(a: Dec, places: int) returns (r: Dec)
    requires Good(a)
    ensures Good(r)
    ensures a.exp >= -places ==> r == a
    ensures a.exp < -places ==> IsHalfEven(Value(a), -places, Value(r))
    ensures a.exp < -places && Val(r.ds) != 0 ==> r.exp == -places
  {
    if a.exp >= -places {
      return a;
    }
    r := ReduceExp(a, -places);
    ReducedValue(a, -places, r);
    OnlyHalfEven(Value(a), -places, Value(r));
  }

  /* -------------------------------------------------------- division */

  /** 2r against the divisor decides; q's last digit breaks the tie. */
  lemma HalfUp(n: int, y: int, q: int, r: int, up: bool)
    requires n == q * y + r && 0 <= r < y
    requires up == (2 * r > y || (2 * r == y && q % 2 != 0))
    ensures Nearest(n, y, if up then q + 1 else q)
  {
    assert n - q * y == r;
    assert n - (q + 1) * y == r - y;
  }

  /** The magnitudes divided, rounded half-even to an integer: q' nearest num / y. */
  method DivNearest(num: seq<int>, y: seq<int>) returns (q: seq<int>)
    requires Lean(num) && Lean(y) && Val(y) > 0
    ensures Digits(q) && |q| > 0 && Nearest(Val(num), Val(y), Val(q))
    ensures Val(num) < (Val(q) + 1) * Val(y)
  {
    hide Val, Pow10, Nearest;
    var rem;
    q, rem := DivModMag(num, y);
    var twice := AddMag(rem, rem);
    var c := CmpMag(twice, y);
    var up := c > 0 || (c == 0 && q[|q| - 1] % 2 != 0);
    LastParity(q);
    HalfUp(Val(num), Val(y), Val(q), Val(rem), up);
    BelowNext(Val(num), Val(y), Val(q), Val(rem));
    if up { q := Increment(q); }
  }

  lemma BelowNext(n: int, y: int, q: int, r: int)
    requires n == q * y + r && 0 <= r < y
    ensures n < (q + 1) * y && n < (q + 1 + 1) * y
  {
    assert (q + 1) * y == q * y + y && (q + 2) * y == q * y + 2 * y;
  }

  /** Q is the quotient of two numbers, whose coefficients n and y meet at exponent `exp`. */
  lemma QuotientAt(q: real, n: int, y: int, j: int, k: int, exp: int)
    requires q * Times(y, k) == Times(n, j) && exp == j - k
    ensures q * (y as real) == Times(n, exp)
  {
    TenMul(exp, k);
    var s, t, yr, nr := Ten(exp), Ten(k), y as real, n as real;
    hide Ten;
    assert nr * (s * t) == (nr * s) * t by { RealAssoc(nr, s, t); }
    assert q * (yr * t) == (q * yr) * t by { RealAssoc(q, yr, t); }
    Cancel(q * yr, nr * s, t);
  }

  lemma Cancel(x: real, y: real, t: real)
    requires t > 0.0 && x * t == y * t
    ensures x == y
  {
    assert (x - y) * t == 0.0;
  }

  lemma AbsTimes(x: real, y: real)
    requires y > 0.0
    ensures Abs(x) * y == Abs(x * y)
  {
    if x < 0.0 { assert (-x) * y == -(x * y); NegTimes(x, y); } else { PosTimes(x, y); }
  }

  lemma NegTimes(x: real, y: real)
    requires x < 0.0 && y > 0.0
    ensures x * y < 0.0
  {
    assert (-x) * y > 0.0;
  }

  lemma PosTimes(x: real, y: real)
    requires x >= 0.0 && y >= 0.0
    ensures x * y >= 0.0
  {}

  /** Scaled by the divisor, the distance from Q to q is n - q * y at that exponent. */
  lemma QuotientGap(q: real, n: int, y: int, exp: int, m: int)
    requires y > 0 && q * (y as real) == Times(n, exp)
    ensures Abs(q - Times(m, exp)) * (y as real) == Abs(Times(n - m * y, exp))
  {
    TimesAdd(n, m * y, exp);
    CastMul(m, y);
    var yr, mr, t := y as real, m as real, Ten(exp);
    hide Ten;
    assert (mr * t) * yr == (mr * yr) * t by { RealAssoc(mr, t, yr); RealAssoc(mr, yr, t); RealSwap(t, yr, 1.0); }
    assert (q - mr * t) * yr == q * yr - (mr * t) * yr;
    AbsTimes(q - mr * t, yr);
  }

  lemma NearestQuotient(q: real, n: int, y: int, exp: int, m: int)
    requires y > 0 && q * (y as real) == Times(n, exp) && Nearest(n, y, m)
    ensures HalfEven(q, exp, Times(m, exp))
  {
    var g, r := Abs(q - Times(m, exp)), n - m * y;
    var big := if r < 0 then -2 * r else 2 * r;
    TwiceGap(q, n, y, exp, m);
    TimesOrder(big, y, exp);
    var t, yr := Ten(exp), y as real;
    hide Ten;
    assert Times(y, exp) == t * yr by { RealSwap(yr, t, 1.0); }
    HalfOf(g, yr, t, Times(big, exp));
    assert Near(q, exp, Times(m, exp), m);
  }

  lemma TwiceGap(q: real, n: int, y: int, exp: int, m: int)
    requires y > 0 && q * (y as real) == Times(n, exp)
    ensures var r := n - m * y;
      2.0 * (Abs(q - Times(m, exp)) * (y as real)) == Times(if r < 0 then -2 * r else 2 * r, exp)
  {
    hide Ten, Times;
    var r := n - m * y;
    QuotientGap(q, n, y, exp, m);
    TimesZero(exp);
    TimesOrder(r, 0, exp);
    TimesAdd(r, r, exp);
    TimesAdd(r, 0, exp);
    TimesAdd(-r, -r, exp);
  }

  lemma HalfOf(g: real, y: real, t: real, b: real)
    requires y > 0.0 && 2.0 * (g * y) == b
    ensures b <= t * y ==> 2.0 * g <= t
    ensures 2.0 * g == t ==> b == t * y
  {
    assert 2.0 * (g * y) == (2.0 * g) * y;
    if 2.0 * g > t { OrderTimes(t, 2.0 * g, y); }
  }

  lemma OrderTimes(x: real, z: real, y: real)
    requires x < z && y > 0.0
    ensures x * y < z * y
  {
    assert (z - x) * y > 0.0;
  }

  /** The quotient of two decimals, with the sign of its coefficient in the dividend. */
  lemma SignedQuotient(q: real, a: Dec, num: Dec, b: Dec, j: int)
    requires Good(a) && Good(num) && Good(b) && Val(b.ds) > 0 && q * Value(b) == Value(a)
    requires Value(a) == Times(Signed(a.neg, Val(num.ds)), j)
    ensures q * (Val(b.ds) as real) == Times(Signed(a.neg != b.neg, Val(num.ds)), j - b.exp)
  {
    var n, y := Val(num.ds), Val(b.ds);
    hide Val, Ten, Times;
    TimesAdd(Coef(b), 0, b.exp);
    TimesAdd(Signed(a.neg, n), 0, j);
    if b.neg {
      assert q * Times(-Coef(b), b.exp)
           == -(q * Times(Coef(b), b.exp)) by { assert q * (-Value(b)) == -(q * Value(b)); }
      QuotientAt(q, -Signed(a.neg, n), y, j, b.exp, j - b.exp);
    } else {
      QuotientAt(q, Signed(a.neg, n), y, j, b.exp, j - b.exp);
    }
  }

  /** A dividend with digits + 1 more digits than the divisor has a quotient of more than that. */
  lemma QuotientLong(num: seq<int>, y: seq<int>, q: int, digits: nat)
    requires Lean(num) && Digits(y) && |num| > digits + |y| && |num| > 1 && Val(num) < (q + 1) * Val(y) && Val(y) > 0
    ensures q >= Pow10(digits)
  {
    ValLower(num);
    ValBound(y);
    Pow10Mono(digits + |y|, |num| - 1);
    Pow10Add(digits, |y|);
    hide Val, Pow10;
    if q < Pow10(digits) {
      AtMost(q + 1, Pow10(digits), Val(y), Pow10(|y|));
    }
  }

  lemma AtMost(x: int, p: int, y: int, s: int)
    requires x <= p && 0 < y < s && p > 0
    ensures x * y <= p * s
  {
    MulAtLeast(p, x, y);
    MulAtLeast(s, y, p);
    assert p * y <= p * s;
  }

  /** How many digits a number of at least 10^digits has. */
  lemma LongAtLeast(s: seq<int>, digits: nat)
    requires Digits(s) && Val(s) >= Pow10(digits)
    ensures |s| > digits
  {
    ValBound(s);
    if |s| <= digits { Pow10Mono(|s|, digits); }
  }

  /** mid is q rounded half-even to an exponent where it has more than the digits kept. */
  ghost predicate Longer(q: real, digits: int, mid: Dec) {
    Good(mid) && |mid.ds| > Keep(digits) && HalfEven(q, mid.exp, Value(mid))
  }

  /** The place of the last digit kept of it. */
  function LastPlace(mid: Dec, digits: int): int {
    mid.exp + |mid.ds| - Keep(digits)
  }

  /** r is q rounded twice: to some more digits, and then to those kept. */
  ghost predicate TwiceRounded(q: real, digits: int, r: Dec) {
    exists mid, l :: Longer(q, digits, mid) && Limited(mid, digits, l) && Value(r) == Value(l)
  }

  /** r is within 11/20 of a unit of the last digit kept, where mid, q rounded to more digits, has
   *  as many of them as are kept. */
  ghost predicate NearLast(q: real, digits: int, r: Dec) {
    exists mid :: Longer(q, digits, mid) && Keeps(mid, digits, LastPlace(mid, digits))
                  && 20.0 * Abs(q - Value(r)) <= 11.0 * Ten(LastPlace(mid, digits))
  }

  /** From its first digit to the one at `place`, d has as many digits as are kept. */
  ghost predicate Keeps(d: Dec, digits: int, place: int) {
    Ten(place + Keep(digits) - 1) <= Abs(Value(d)) < Ten(place + Keep(digits))
  }

  /** vl_dec_div: the quotient, exact when the digits kept can express it, and else within 11/20 of
   *  a unit of the last of them. */
  method Div(a: Dec, b: Dec, digits: int) returns (ok: bool, r: Dec)
    requires Good(a) && Good(b)
    ensures ok <==> Value(b) != 0.0
    ensures ok ==> Good(r)
    ensures ok && Value(a) == 0.0 ==> Value(r) == 0.0
    ensures ok && Value(a) != 0.0 ==> TwiceRounded(Value(a) / Value(b), digits, r)
    ensures ok && Value(a) != 0.0 ==> ExactWhenFits(Value(a) / Value(b), digits, r)
    ensures ok && Value(a) != 0.0 ==> NearLast(Value(a) / Value(b), digits, r)
  {
    ZeroValue(a);
    ZeroValue(b);
    ValBound(b.ds);
    assert Pow10(0) == 1;
    hide Val, Pow10, Ten, Times, Nearest, Value, TwiceRounded, ExactWhenFits, NearLast, Limited, HalfEven, Normalized;
    if b == Dec(false, [0], 0) {
      return false, b;
    }
    if a == Dec(false, [0], 0) {
      return true, a;
    }
    var keep := if digits <= 0 then 28 else digits;
    var shift := keep + |b.ds| - |a.ds| + 1;
    var up := if shift > 0 then shift else 0;
    var num := Scale(a, shift);
    var exp := a.exp - b.exp - up;
    NumeratorLong(a, b, num, shift, keep);
    var q := DivNearest(num.ds, b.ds);
    var out := Make(a.neg != b.neg, q, exp);
    DivMiddle(a, b, num, up, digits, q, out);
    var rounded := RoundTo(out, digits);
    r := Normalize(rounded);
    ok := true;
    DivDone(a, b, digits, out, rounded, r);
  }

  lemma NumeratorLong(a: Dec, b: Dec, num: Dec, shift: int, keep: nat)
    requires Good(a) && Good(b) && Good(num) && a != Dec(false, [0], 0) && b != Dec(false, [0], 0)
    requires shift == keep + |b.ds| - |a.ds| + 1 && (shift <= 0 ==> num == a)
    requires shift >= 0 ==> Val(num.ds) == Val(a.ds) * Pow10(shift)
    requires shift > 0 && Val(a.ds) != 0 ==> |num.ds| == |a.ds| + shift
    ensures Val(num.ds) == Val(a.ds) * Pow10(if shift > 0 then shift else 0)
    ensures Lean(num.ds) && Lean(b.ds) && Val(b.ds) > 0 && Val(a.ds) > 0 && |num.ds| > keep + |b.ds|
  {
    ZeroValue(a);
    ZeroValue(b);
    ValBound(a.ds);
    ValBound(b.ds);
    assert Pow10(0) == 1;
  }

  lemma DivMiddle(a: Dec, b: Dec, num: Dec, up: nat, digits: int, q: seq<int>, out: Dec)
    requires Good(a) && Good(b) && Good(num) && Good(out) && Value(b) != 0.0 && Val(b.ds) > 0
    requires Val(num.ds) == Val(a.ds) * Pow10(up) && |num.ds| > Keep(digits) + |b.ds|
    requires Digits(q) && |q| > 0 && Nearest(Val(num.ds), Val(b.ds), Val(q)) && Val(num.ds) < (Val(q) + 1) * Val(b.ds)
    requires Value(out) == Times(Signed(a.neg != b.neg, Val(q)), a.exp - b.exp - up) && Val(out.ds) == Val(q)
    requires Val(q) != 0 ==> out.exp == a.exp - b.exp - up
    ensures Longer(Value(a) / Value(b), digits, out)
  {
    hide Val, Pow10, Ten, Times, Nearest, Value, HalfEven;
    AtShift(a, num, up);
    QuotientLong(num.ds, b.ds, Val(q), Keep(digits));
    LongAtLeast(out.ds, Keep(digits));
    Middle(a, num, b, up, Val(q));
  }

  lemma DivDone(a: Dec, b: Dec, digits: int, mid: Dec, l: Dec, r: Dec)
    requires Good(a) && Good(b) && Value(b) != 0.0
    requires Longer(Value(a) / Value(b), digits, mid) && Limited(mid, digits, l) && Value(r) == Value(l)
    ensures TwiceRounded(Value(a) / Value(b), digits, r) && ExactWhenFits(Value(a) / Value(b), digits, r)
    ensures NearLast(Value(a) / Value(b), digits, r)
  {
    hide Pow10, Ten, Times, Val, Value, Limited, HalfEven, Keeps;
    var q := Value(a) / Value(b);
    LastKept(digits, mid);
    forall m: int, k: int | q == Times(m, k) && -Pow10(Keep(digits)) < m < Pow10(Keep(digits)) ensures Value(r) == q {
      DivExact(a, b, digits, mid, l, m, k);
    }
    DivWithin(q, digits, mid, l);
  }

  lemma ZeroValue(d: Dec)
    requires Good(d)
    ensures Value(d) == 0.0 <==> d == Dec(false, [0], 0)
    ensures d == Dec(false, [0], 0) <==> Val(d.ds) == 0
  {
    ZeroDec(d);
    TimesZero(d.exp);
    TimesOrder(Coef(d), 0, d.exp);
  }

  lemma AtShift(a: Dec, num: Dec, up: nat)
    requires Good(a) && Good(num) && Val(num.ds) == Val(a.ds) * Pow10(up)
    ensures Value(a) == Times(Signed(a.neg, Val(num.ds)), a.exp - up)
  {
    Aligned(a, up);
  }

  lemma Middle(a: Dec, num: Dec, b: Dec, up: nat, q: int)
    requires Good(a) && Good(num) && Good(b) && Val(b.ds) > 0 && Value(b) != 0.0
    requires Value(a) == Times(Signed(a.neg, Val(num.ds)), a.exp - up) && Nearest(Val(num.ds), Val(b.ds), q)
    ensures HalfEven(Value(a) / Value(b), a.exp - b.exp - up, Times(Signed(a.neg != b.neg, q), a.exp - b.exp - up))
  {
    hide Val, Ten, Times, Nearest, Value;
    var quot := Value(a) / Value(b);
    assert quot * Value(b) == Value(a);
    SignedQuotient(quot, a, num, b, a.exp - up);
    NearestNeg(Val(num.ds), Val(b.ds), q);
    NearestQuotient(quot, Signed(a.neg != b.neg, Val(num.ds)), Val(b.ds), a.exp - b.exp - up,
                    Signed(a.neg != b.neg, q));
  }

  /** A multiple of a lower place that small is not within half a place of that large a number. */
  lemma FarApart(m: int, c: int, p: int, s: int)
    requires -p < m < p && (c >= p || c <= -p) && p >= 10 && s >= 10
    ensures 2 * (m - c * s) > s || 2 * (m - c * s) < -s
  {
    if c >= p {
      MulAtLeast(c, p, s);
      assert p * s >= 10 * p + 10 * s - 100 by { assert (p - 10) * (s - 10) >= 0; }
    } else {
      MulAtLeast(-c, p, s);
      assert p * s >= 10 * p + 10 * s - 100 by { assert (p - 10) * (s - 10) >= 0; }
      assert (-c) * s == -(c * s);
    }
  }

  /** The quotient rounded to more digits than are kept is exact when the quotient has no more. */
  lemma MidExact(q: real, mid: Dec, digits: int, m: int, k: int)
    requires Good(mid) && |mid.ds| > Keep(digits) && HalfEven(q, mid.exp, Value(mid))
    requires q == Times(m, k) && -Pow10(Keep(digits)) < m < Pow10(Keep(digits))
    ensures Value(mid) == q
  {
    if k >= mid.exp {
      TimesShift(m, mid.exp, k - mid.exp);
      HalfEvenExact(m * Pow10(k - mid.exp), mid.exp, Value(mid));
    } else {
      var s := mid.exp - k;
      var d := Keep(digits);
      TimesShift(Coef(mid), k, s);
      TimesShift(1, k, s);
      TimesAdd(m, Coef(mid) * Pow10(s), k);
      var gap := m - Coef(mid) * Pow10(s);
      HalfStep(q, Value(mid), gap, k, 1);
      TimesOrder(if gap < 0 then -2 * gap else 2 * gap, Pow10(s), k);
      ValLower(mid.ds);
      Pow10Mono(d, |mid.ds| - 1);
      Pow10Mono(1, d);
      Pow10Mono(1, s);
      FarApart(m, Coef(mid), Pow10(d), Pow10(s));
    }
  }

  /** A quotient that `digits` significant digits can express comes out exact. */
  lemma DivExact(a: Dec, b: Dec, digits: int, mid: Dec, l: Dec, m: int, k: int)
    requires Good(a) && Good(b) && Value(b) != 0.0
    requires Longer(Value(a) / Value(b), digits, mid) && Limited(mid, digits, l)
    requires Value(a) / Value(b) == Times(m, k) && -Pow10(Keep(digits)) < m < Pow10(Keep(digits))
    ensures Value(l) == Value(a) / Value(b)
  {
    hide Pow10, Ten, Times, Val, Value, Limited, HalfEven;
    MidExact(Value(a) / Value(b), mid, digits, m, k);
    LimitedExact(mid, digits, l, m, k);
  }

  /** Any other is within 11/20 of a unit of the last digit kept: it is rounded twice. */
  lemma DivWithin(q: real, digits: int, mid: Dec, l: Dec)
    requires Longer(q, digits, mid) && Limited(mid, digits, l)
    ensures 20.0 * Abs(q - Value(l)) <= 11.0 * Ten(LastPlace(mid, digits))
  {
    var more := |mid.ds| - Keep(digits);
    assert LastPlace(mid, digits) == mid.exp + |mid.ds| - Keep(digits) == mid.exp + more;
    assert HalfEven(q, mid.exp, Value(mid)) && more > 0;
    hide *;
    TenTimesMore(mid.exp, more);
    HalfEvenGap(q, mid.exp, Value(mid));
    LimitedGap(mid, digits, l);
    Triangle(q, Value(mid), Value(l), Ten(mid.exp), Ten(mid.exp + more));
  }

  lemma TenTimesMore(e: int, more: nat)
    requires more > 0
    ensures Ten(e + more) >= 10.0 * Ten(e)
  {
    TenPow(e, more);
    TenDigits();
    Pow10Mono(1, more);
    AtLeastTen(Pow10(more), Ten(e), Ten(e + more));
  }

  lemma AtLeastTen(p: int, t: real, s: real)
    requires p >= 10 && t > 0.0 && s == p as real * t
    ensures s >= 10.0 * t
  {
    TenAtLeast(p, t);
  }

  lemma LimitedGap(mid: Dec, digits: int, l: Dec)
    requires Limited(mid, digits, l) && |mid.ds| > Keep(digits)
    ensures 2.0 * Abs(Value(mid) - Value(l)) <= Ten(mid.exp + |mid.ds| - Keep(digits))
  {
    hide Ten, Value;
  }

  lemma Triangle(x: real, y: real, z: real, s: real, t: real)
    requires 2.0 * Abs(x - y) <= s && 2.0 * Abs(y - z) <= t && 10.0 * s <= t
    ensures 20.0 * Abs(x - z) <= 11.0 * t
  {}

  lemma TenDigits()
    ensures Pow10(1) == 10
  {
    assert Pow10(0) == 1;
  }

  lemma HalfEvenGap(x: real, e: int, y: real)
    requires HalfEven(x, e, y)
    ensures 2.0 * Abs(x - y) <= Ten(e)
  {}

  lemma TenAtLeast(p: int, t: real)
    requires p >= 10 && t > 0.0
    ensures p as real * t >= 10.0 * t
  {
    PosTimes(p as real - 10.0, t);
    assert (p as real - 10.0) * t == p as real * t - 10.0 * t;
  }

  /** And the last digit kept is where the quotient, rounded to more digits, has `digits` of them. */
  lemma LastKept(digits: int, mid: Dec)
    requires Good(mid) && |mid.ds| > Keep(digits)
    ensures Keeps(mid, digits, LastPlace(mid, digits))
  {
    ValLower(mid.ds);
    ValBound(mid.ds);
    var n := |mid.ds|;
    TimesShift(1, mid.exp, n - 1);
    TimesShift(1, mid.exp, n);
    TimesOrder(Val(mid.ds), Pow10(n - 1), mid.exp);
    TimesOrder(Val(mid.ds), Pow10(n), mid.exp);
    TimesAdd(Coef(mid), 0, mid.exp);
    TimesOrder(0, Coef(mid), mid.exp);
    TimesZero(mid.exp);
  }

  /* -------------------------------------------------------- floor division */

  lemma FloorOf(q: real, n: int)
    requires n as real <= q < n as real + 1.0
    ensures q.Floor == n
  {}

  lemma LeTimes(x: real, z: real, y: real)
    requires y > 0.0
    ensures x * y <= z * y ==> x <= z
    ensures x * y < z * y ==> x < z
  {
    if x > z { OrderTimes(z, x, y); }
  }

  lemma FloorFrom(quot: real, f: int, y: int, v: int)
    requires y > 0 && quot * (y as real) == v as real && f * y <= v < (f + 1) * y
    ensures quot.Floor == f
  {
    CastMul(f, y);
    CastMul(f + 1, y);
    LeTimes(f as real, quot, y as real);
    LeTimes(quot, (f + 1) as real, y as real);
    FloorOf(quot, f);
  }

  /** The floor of a quotient, from the magnitudes' quotient and remainder. */
  lemma FloorQuotient(quot: real, neg: bool, n: int, y: int, q: int, r: int)
    requires y > 0 && 0 <= r < y && n == q * y + r && quot * (y as real) == Signed(neg, n) as real
    ensures quot.Floor == if !neg then q else if r == 0 then -q else -q - 1
  {
    FloorMath(q, y);
    FloorFrom(quot, if !neg then q else if r == 0 then -q else -q - 1, y, Signed(neg, n));
  }

  lemma FloorMath(q: int, y: int)
    ensures (q + 1) * y == q * y + y && (-q) * y == -(q * y) && (-q + 1) * y == -(q * y) + y
    ensures (-q - 1) * y == -(q * y) - y && (-q - 1 + 1) * y == -(q * y)
  {}

  /** vl_dec_idiv: the floor of the quotient; where it is a negative one rounded down by taking
   *  one more away, the result is limited to the digits kept. */
  method Idiv(a: Dec, b: Dec, digits: int) returns (ok: bool, r: Dec)
    requires Good(a) && Good(b)
    ensures ok <==> Value(b) != 0.0
    ensures ok ==> Floored(Value(a) / Value(b), digits, r)
  {
    ZeroValue(b);
    UnitOne();
    hide Val, Pow10, Ten, Times, Value, Floored, Rounds, ExactWhenFits, Limited;
    if b == Dec(false, [0], 0) {
      return false, b;
    }
    ok := true;
    var exp := if a.exp < b.exp then a.exp else b.exp;
    var p := Scale(a, a.exp - exp);
    var s := Scale(b, b.exp - exp);
    DivisorThere(b, s, b.exp - exp);
    var q, rem := DivModMag(p.ds, s.ds);
    var neg := p.neg != s.neg;
    var remNonzero := !(|rem| == 1 && rem[0] == 0);
    LeanZero(rem);
    var out := Make(neg, q, 0);
    if neg && remNonzero {
      var one := Dec(false, [1], 0);
      r := AddSigned(out, one, true, digits);
    } else {
      r := out;
    }
    IdivDone(a, b, p, s, exp, Val(q), Val(rem), digits, r);
  }

  lemma DivisorThere(b: Dec, s: Dec, k: nat)
    requires Good(b) && Good(s) && b != Dec(false, [0], 0) && Val(s.ds) == Val(b.ds) * Pow10(k)
    ensures Val(s.ds) > 0
  {
    ZeroValue(b);
    ZeroTimes(Val(b.ds), Pow10(k));
    ValBound(s.ds);
  }

  lemma IdivDone(a: Dec, b: Dec, p: Dec, s: Dec, exp: int, q: int, rem: int, digits: int, r: Dec)
    requires Good(a) && Good(b) && Good(p) && Good(s) && Value(b) != 0.0 && exp <= a.exp && exp <= b.exp
    requires Val(p.ds) == Val(a.ds) * Pow10(a.exp - exp) && (Val(a.ds) != 0 ==> p.neg == a.neg)
    requires Val(s.ds) == Val(b.ds) * Pow10(b.exp - exp) && (Val(b.ds) != 0 ==> s.neg == b.neg)
    requires (Val(a.ds) == 0 ==> p == Dec(false, [0], 0)) && (Val(b.ds) == 0 ==> s == Dec(false, [0], 0))
    requires Val(s.ds) > 0 && Val(p.ds) == q * Val(s.ds) + rem && 0 <= rem < Val(s.ds)
    requires var neg := p.neg != s.neg;
      if neg && rem != 0 then Rounds(Times(Signed(neg, q), 0) - 1.0, digits, r)
      else Value(r) == Times(Signed(neg, q), 0)
    ensures Floored(Value(a) / Value(b), digits, r)
  {
    hide Val, Pow10, Ten, Times, Value, Floored, Rounds;
    AtCommon(a, p, a.exp - exp, exp);
    AtCommon(b, s, b.exp - exp, exp);
    ValBound(p.ds);
    FloorDone(Value(a), Value(b), p, s, exp, q, rem, digits, r);
  }

  lemma UnitOne()
    ensures Good(Dec(false, [1], 0)) && Value(Dec(false, [1], 0)) == 1.0
  {
    ValOne(1);
    Units(1);
  }

  /** r is the floor of quot, or that floor limited to the digits kept when quot is negative and
   *  not whole. */
  ghost predicate Floored(quot: real, digits: int, r: Dec) {
    if quot >= 0.0 || quot == quot.Floor as real then Value(r) == quot.Floor as real
    else Rounds(quot.Floor as real, digits, r)
  }

  lemma FloorDone(va: real, vb: real, p: Dec, s: Dec, exp: int, q: int, rem: int, digits: int, r: Dec)
    requires Good(p) && Good(s) && Val(s.ds) > 0 && Val(p.ds) >= 0 && vb != 0.0
    requires va == Times(Coef(p), exp) && vb == Times(Coef(s), exp)
    requires Val(p.ds) == q * Val(s.ds) + rem && 0 <= rem < Val(s.ds)
    requires var neg := p.neg != s.neg;
      if neg && rem != 0 then Rounds(Times(Signed(neg, q), 0) - 1.0, digits, r)
      else Value(r) == Times(Signed(neg, q), 0)
    ensures Floored(va / vb, digits, r)
  {
    hide *;
    var quot := va / vb;
    var neg := p.neg != s.neg;
    Divided(va, vb);
    IntegerQuotient(quot, p, s, exp);
    FloorQuotient(quot, neg, Val(p.ds), Val(s.ds), q, rem);
    WholeQuotient(quot, neg, Val(p.ds), Val(s.ds), q, rem);
    Units(Signed(neg, q));
    SignedMinus(q);
    FlooredFrom(quot, digits, r);
  }

  lemma Divided(x: real, y: real)
    requires y != 0.0
    ensures (x / y) * y == x
  {}

  lemma SignedMinus(q: int)
    ensures Signed(true, q) == -q && Signed(false, q) == q
  {}

  lemma FlooredFrom(quot: real, digits: int, r: Dec)
    requires var whole := quot >= 0.0 || quot == quot.Floor as real;
      if whole then Value(r) == quot.Floor as real
      else Rounds(quot.Floor as real, digits, r)
    ensures Floored(quot, digits, r)
  {
    hide Value, Rounds;
  }

  lemma Units(n: int)
    ensures Times(n, 0) == n as real
  {}

  lemma LeanZero(s: seq<int>)
    requires Lean(s)
    ensures Val(s) == 0 <==> |s| == 1 && s[0] == 0
  {
    ValZero(s);
  }

  lemma IntegerQuotient(quot: real, p: Dec, s: Dec, exp: int)
    requires Good(p) && Good(s) && Val(s.ds) > 0 && quot * Times(Coef(s), exp) == Times(Coef(p), exp)
    ensures quot * (Val(s.ds) as real) == Signed(p.neg != s.neg, Val(p.ds)) as real
  {
    hide Ten, Val, Good;
    CancelTimes(quot, Coef(s) as real, Coef(p) as real, Ten(exp));
    FlipTimes(quot, Coef(s) as real);
  }

  lemma CancelTimes(x: real, c: real, n: real, t: real)
    requires t > 0.0 && x * (c * t) == n * t
    ensures x * c == n
  {
    RealAssoc(x, c, t);
    Cancel(x * c, n, t);
  }

  lemma FlipTimes(x: real, y: real)
    ensures x * (-y) == -(x * y)
  {}

  /** A quotient is whole when nothing remains, and has the sign its parts give it. */
  lemma WholeQuotient(quot: real, neg: bool, n: int, y: int, q: int, r: int)
    requires y > 0 && 0 <= r < y && n == q * y + r && n >= 0 && quot * (y as real) == Signed(neg, n) as real
    ensures r == 0 ==> quot == Signed(neg, q) as real
    ensures r != 0 ==> quot != quot.Floor as real
    ensures quot >= 0.0 <==> !neg || n == 0
    ensures !neg ==> quot.Floor == q
  {
    FloorQuotient(quot, neg, n, y, q, r);
    var yr, f := y as real, quot.Floor;
    if r == 0 {
      CastMul(Signed(neg, q), y);
      assert Signed(neg, q) * y == Signed(neg, n) by { assert (-q) * y == -(q * y); }
      Cancel(quot, Signed(neg, q) as real, yr);
    } else {
      assert f * y != Signed(neg, n) by {
        assert (-q) * y == -(q * y) && (-q - 1) * y == -(q * y) - y;
      }
      CastMul(f, y);
    }
    if quot < 0.0 { NegTimes(quot, yr); } else { PosTimes(quot, yr); }
  }
}
