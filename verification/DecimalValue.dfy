/** Decimals and the numbers they stand for; rounding half-even at a decimal place. */
module DecimalValue {
  import opened DecimalDigits

  /** Coefficient digits, most significant first, and a power of ten. */
  datatype Dec = Dec(neg: bool, ds: seq<int>, exp: int)

  /** What `make` builds: no leading zeros, and one form of zero. */
  predicate Good(d: Dec) {
    Lean(d.ds) && (Val(d.ds) == 0 ==> d == Dec(false, [0], 0))
  }

  function Coef(d: Dec): int {
    if d.neg then -Val(d.ds) else Val(d.ds)
  }

  ghost function Ten(k: int): (t: real)
    ensures t > 0.0
    decreases if k < 0 then -k else k
  {
    if k == 0 then 1.0 else if k > 0 then 10.0 * Ten(k - 1) else Ten(k + 1) / 10.0
  }

  ghost function Times(x: int, k: int): real {
    x as real * Ten(k)
  }

  ghost function Value(d: Dec): real {
    Times(Coef(d), d.exp)
  }

  function Abs(x: real): real {
    if x < 0.0 then -x else x
  }

  /** y is x rounded half-even to a multiple of 10^e. */
  ghost predicate HalfEven(x: real, e: int, y: real) {
    exists q: int :: y == Times(q, e) && Near(x, e, y, q)
  }

  ghost predicate Near(x: real, e: int, y: real, q: int) {
    2.0 * Abs(x - y) <= Ten(e) && (2.0 * Abs(x - y) == Ten(e) ==> q % 2 == 0)
  }

  /* -------------------------------------------------------- powers of ten */

  lemma TenNext(k: int)
    ensures Ten(k + 1) == 10.0 * Ten(k)
  {}

  lemma RealAssoc(x: real, y: real, z: real)
    ensures x * (y * z) == (x * y) * z
  {}

  lemma {:induction false} TenPow(k: int, n: nat)
    ensures Ten(k + n) == Pow10(n) as real * Ten(k)
  {
    if n > 0 {
      TenPow(k, n - 1);
      TenNext(k + n - 1);
      RealAssoc(10.0, Pow10(n - 1) as real, Ten(k));
    }
  }

  /** The same number with more digits after it. */
  lemma TimesShift(x: int, k: int, n: nat)
    ensures Times(x * Pow10(n), k) == Times(x, k + n)
  {
    TenPow(k, n);
    RealAssoc(x as real, Pow10(n) as real, Ten(k));
    CastMul(x, Pow10(n));
  }

  lemma CastMul(x: int, y: int)
    ensures (x * y) as real == x as real * y as real
  {}

  lemma TimesAdd(x: int, y: int, k: int)
    ensures Times(x + y, k) == Times(x, k) + Times(y, k)
    ensures Times(x - y, k) == Times(x, k) - Times(y, k)
    ensures Times(-x, k) == -Times(x, k)
  {
    var t := Ten(k);
    assert (x + y) as real * t == x as real * t + y as real * t;
    assert (x - y) as real * t == x as real * t - y as real * t;
    assert (-x) as real * t == -(x as real * t);
  }

  lemma TimesZero(k: int)
    ensures Times(0, k) == 0.0
  {}

  lemma TimesOrder(x: int, y: int, k: int)
    ensures Times(x, k) < Times(y, k) <==> x < y
    ensures Times(x, k) == Times(y, k) <==> x == y
  {
    var t := Ten(k);
    if x < y { assert (y - x) as real * t > 0.0; }
    if y < x { assert (x - y) as real * t > 0.0; }
    TimesAdd(y, x, k);
    TimesAdd(x, y, k);
  }

  lemma RealSwap(x: real, y: real, z: real)
    ensures x * (y * z) == y * (x * z)
  {
    RealAssoc(x, y, z);
    RealAssoc(y, x, z);
  }

  lemma TenTimes(x: real, y: real)
    requires 10.0 * x == 10.0 * y
    ensures x == y
  {}

  lemma TenUp(a: real, b: real, c: real, d: real, e: real)
    requires a == 10.0 * b && d == 10.0 * e && b == c * e
    ensures a == c * d
  {
    RealSwap(10.0, c, e);
  }

  lemma TenDown(a: real, b: real, c: real, d: real, e: real)
    requires b == 10.0 * a && e == 10.0 * d && b == c * e
    ensures a == c * d
  {
    RealSwap(10.0, c, d);
    TenTimes(a, c * d);
  }

  lemma {:induction false} TenMul(j: int, k: int)
    ensures Ten(j + k) == Ten(j) * Ten(k)
    decreases if k < 0 then -k else k
  {
    hide Ten;
    if k == 0 {
      TenOne();
    } else if k > 0 {
      TenMul(j, k - 1);
      TenNext(j + k - 1);
      TenNext(k - 1);
      TenUp(Ten(j + k), Ten(j + (k - 1)), Ten(j), Ten(k), Ten(k - 1));
    } else {
      TenMul(j, k + 1);
      TenNext(j + k);
      TenNext(k);
      TenDown(Ten(j + k), Ten(j + (k + 1)), Ten(j), Ten(k), Ten(k + 1));
    }
  }

  lemma TenOne()
    ensures Ten(0) == 1.0
  {}

  lemma RealFour(a: real, b: real, s: real, t: real)
    ensures (a * b) * (s * t) == (a * s) * (b * t)
  {
    RealAssoc(a * b, s, t);
    RealAssoc(a * s, b, t);
    RealSwap(a, b, s);
    RealAssoc(a, b, s);
    RealAssoc(b, a, s);
    assert (a * b) * s == (a * s) * b;
  }

  lemma TimesMul(x: int, y: int, j: int, k: int)
    ensures Times(x * y, j + k) == Times(x, j) * Times(y, k)
  {
    TenMul(j, k);
    CastMul(x, y);
    hide Ten;
    RealFour(x as real, y as real, Ten(j), Ten(k));
  }

  /* -------------------------------------------------------- rounding */

  /** q is n / p rounded half-even. */
  predicate Nearest(n: int, p: int, q: int) {
    var r := n - q * p;
    -p <= 2 * r <= p && (2 * r == p || 2 * r == -p ==> q % 2 == 0)
  }

  lemma NearestNeg(n: int, p: int, q: int)
    requires Nearest(n, p, q)
    ensures Nearest(-n, p, -q)
  {
    assert -n - (-q) * p == -(n - q * p);
  }

  /** Rounding the coefficient is rounding the number. */
  lemma NearestHalfEven(n: int, q: int, e: int, drop: nat)
    requires Nearest(n, Pow10(drop), q)
    ensures HalfEven(Times(n, e), e + drop, Times(q, e + drop))
  {
    var p, r := Pow10(drop), n - q * Pow10(drop);
    TimesShift(q, e, drop);
    TimesShift(1, e, drop);
    TimesAdd(n, q * p, e);
    var x, y := Times(n, e), Times(q, e + drop);
    assert x - y == Times(r, e);
    assert Ten(e + drop) == Times(p, e) by { TenPow(e, drop); }
    TimesAdd(r, r, e);
    TimesAdd(-r, -r, e);
    TimesAdd(r, 0, e);
    TimesOrder(2 * r, p, e);
    TimesOrder(-2 * r, p, e);
    TimesOrder(0, r, e);
    TimesZero(e);
    HalfStep(x, y, r, e, p);
    assert Near(x, e + drop, y, q);
  }

  lemma HalfStep(x: real, y: real, r: int, e: int, p: int)
    requires x - y == Times(r, e)
    ensures 2.0 * Abs(x - y) == Times(if r < 0 then -2 * r else 2 * r, e)
  {
    TimesZero(e);
    TimesOrder(0, r, e);
    TimesAdd(r, r, e);
    TimesAdd(r, 0, e);
    TimesAdd(-r, -r, e);
  }

  /** What is a multiple of the place stays as it is. */
  lemma HalfEvenExact(m: int, e: int, y: real)
    requires HalfEven(Times(m, e), e, y)
    ensures y == Times(m, e)
  {
    var q: int :| y == Times(q, e) && Near(Times(m, e), e, y, q);
    TimesAdd(m, q, e);
    HalfStep(Times(m, e), y, m - q, e, 1);
    TimesOrder(if m - q < 0 then -2 * (m - q) else 2 * (m - q), 1, e);
    assert Ten(e) == Times(1, e);
  }

  /** There is one such number. */
  lemma HalfEvenOne(x: real, e: int, y: real, z: real)
    requires HalfEven(x, e, y) && HalfEven(x, e, z)
    ensures y == z
  {
    var p: int :| y == Times(p, e) && Near(x, e, y, p);
    var q: int :| z == Times(q, e) && Near(x, e, z, q);
    TimesAdd(p, q, e);
    TimesOrder(p - q, 1, e);
    TimesOrder(q - p, 1, e);
    TimesAdd(q, p, e);
    assert Ten(e) == Times(1, e);
    hide Ten, Times;
    assert -1 <= p - q <= 1;
    assert p != q ==> 2.0 * Abs(x - y) == Ten(e) && 2.0 * Abs(x - z) == Ten(e);
  }

  /** At the ones that is the nearest integer, and between two the even one. */
  lemma HalfEvenOnes(x: real, q: int)
    ensures HalfEven(x, 0, q as real) <==>
      q as real - 0.5 <= x <= q as real + 0.5 && (q % 2 == 1 ==> q as real - 0.5 < x < q as real + 0.5)
  {
    assert forall p: int :: Times(p, 0) == p as real;
    assert HalfEven(x, 0, q as real) <==> Near(x, 0, q as real, q);
  }

  /** The place of the last digit that `digits` significant digits keep. */
  function Keep(digits: int): int {
    if digits <= 0 then 28 else digits
  }

  /** r is e limited to `digits` significant digits: e itself when it has no more, else rounded
   *  half-even at the place of the last digit kept. */
  ghost predicate Limited(e: Dec, digits: int, r: Dec) {
    Good(r)
    && if |e.ds| <= Keep(digits) then r == e
       else HalfEven(Value(e), e.exp + |e.ds| - Keep(digits), Value(r))
  }

  /** A number that `digits` digits can express comes out exact. */
  lemma LimitedExact(e: Dec, digits: int, r: Dec, m: int, k: int)
    requires Good(e) && Limited(e, digits, r) && Value(e) == Times(m, k)
    requires -Pow10(Keep(digits)) < m < Pow10(Keep(digits))
    ensures Value(r) == Value(e)
  {
    var place := e.exp + |e.ds| - Keep(digits);
    if |e.ds| > Keep(digits) {
      if k >= place {
        TimesShift(m, place, k - place);
        HalfEvenExact(m * Pow10(k - place), place, Value(r));
      } else {
        TooSmall(e, Keep(digits), m, k);
      }
    }
  }

  /** An n-digit coefficient is no number of less than n digits at a lower place. */
  lemma TooSmall(e: Dec, digits: nat, m: int, k: int)
    requires Good(e) && |e.ds| > digits > 0 && Value(e) == Times(m, k) && -Pow10(digits) < m < Pow10(digits)
    ensures k >= e.exp + |e.ds| - digits
  {
    var n := |e.ds|;
    var low := if k < e.exp then k else e.exp;
    TimesShift(m, low, k - low);
    TimesShift(Coef(e), low, e.exp - low);
    TimesOrder(m * Pow10(k - low), Coef(e) * Pow10(e.exp - low), low);
    ValLower(e.ds);
    Magnitudes(m, Pow10(k - low), Coef(e), Pow10(e.exp - low));
    hide Ten, Times, Pow10, Val;
    PlacesApart(if m < 0 then -m else m, Val(e.ds), n - 1, digits, k - low, e.exp - low);
  }

  /** a * 10^s < 10^(digits + s) <= 10^(n + t) <= v * 10^t */
  lemma PlacesApart(a: int, v: int, n: nat, digits: nat, s: nat, t: nat)
    requires a < Pow10(digits) && v >= Pow10(n)
    ensures digits + s <= n + t ==> a * Pow10(s) < v * Pow10(t)
  {
    hide Pow10;
    Pow10Add(n, t);
    Pow10Add(digits, s);
    if digits + s <= n + t {
      Pow10Mono(digits + s, n + t);
      Between(a, v, Pow10(digits), Pow10(n), Pow10(s), Pow10(t));
    }
  }

  lemma Between(a: int, v: int, d: int, n: int, s: int, t: int)
    requires a < d && v >= n && d * s <= n * t && s > 0 && t > 0
    ensures a * s < v * t
  {
    MulAtLeast(v, n, t);
    MulLess(a, d, s);
  }

  lemma Magnitudes(m: int, p: int, c: int, q: int)
    requires m * p == c * q && p > 0 && q > 0
    ensures (if m < 0 then -m else m) * p == (if c < 0 then -c else c) * q
  {
    assert (-m) * p == -(m * p) && (-c) * q == -(c * q);
    SignOf(m, p);
    SignOf(c, q);
  }

  lemma SignOf(m: int, p: int)
    requires p > 0
    ensures m < 0 <==> m * p < 0
  {
    if m < 0 { assert (-m) * p > 0; } else { assert m * p >= 0; }
  }

  lemma MulAtLeast(x: int, y: int, p: int)
    requires x >= y && p >= 0
    ensures x * p >= y * p
  {
    assert (x - y) * p >= 0;
  }

  lemma MulLess(x: int, y: int, p: int)
    requires x < y && p > 0
    ensures x * p < y * p
  {
    assert (y - x) * p > 0;
  }
}
