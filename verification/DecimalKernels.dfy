/** The digit-string kernels of runtime/src/dec.c, each against the numbers it computes with. */
module DecimalKernels {
  import opened DecimalDigits

  function Sign(n: int): int {
    if n < 0 then -1 else if n > 0 then 1 else 0
  }

  /** v and c more at the place worth p. */
  function Worth(v: int, c: int, p: int): int {
    v + c * p
  }

  /** v, and c owed at the place worth p. */
  function Owing(v: int, c: int, p: int): int {
    v - c * p
  }

  lemma WorthNone(v: int, p: int)
    ensures Worth(v, 0, p) == v
  {}

  lemma Step(p: int, u: int, da: int, va: int, db: int, vb: int, s: int, c: int, c': int, d: int)
    requires u + c * p == va + vb && s == da + db + c && d == s % 10 && c' == s / 10
    ensures (d * p + u) + c' * (10 * p) == (da * p + va) + (db * p + vb)
  {
    assert s == 10 * c' + d;
    calc {
      (d * p + u) + c' * (10 * p);
      (d + 10 * c') * p + u;
      (da + db + c) * p + u;
      da * p + db * p + (u + c * p);
    }
  }

  /** A carry out of places that hold everything is none. */
  lemma CarryEnds(v: int, c: int, p: int, total: int)
    requires v >= 0 && c >= 0 && p > total && p > 0 && Worth(v, c, p) == total
    ensures v == total
  {
    if c >= 1 { AtLeast(c, p); }
  }

  lemma BorrowEnds(v: int, c: int, p: int, x: int, y: int)
    requires v < p && 0 <= c <= 1 && x >= y && Owing(v, c, p) == x - y
    ensures v == x - y
  {}

  lemma LowAll(s: seq<int>, n: nat)
    requires n >= |s|
    ensures Val(Low(s, n)) == Val(s)
  {}

  lemma LowNone(s: seq<int>)
    ensures Val(Low(s, 0)) == 0
  {
    if s == [] { } else { assert Low(s, 0) == []; }
  }

  lemma SumFits(a: seq<int>, b: seq<int>, n: nat)
    requires Digits(a) && Digits(b) && n > |a| && n > |b|
    ensures Val(a) + Val(b) < Pow10(n)
  {
    ValBound(a);
    ValBound(b);
    Pow10Mono(|a|, n - 1);
    Pow10Mono(|b|, n - 1);
  }

  lemma PlaceDigit(s: seq<int>, i: nat)
    requires Digits(s)
    ensures 0 <= Place(s, i) <= 9
  {}

  lemma AddStep(a: seq<int>, b: seq<int>, i: nat, low: seq<int>, carry: int, s: int)
    requires |low| == i && s == Place(a, i) + Place(b, i) + carry
    requires Worth(Val(low), carry, Pow10(i)) == Val(Low(a, i)) + Val(Low(b, i))
    ensures Worth(Val([s % 10] + low), s / 10, Pow10(i + 1)) == Val(Low(a, i + 1)) + Val(Low(b, i + 1))
  {
    LowStep(a, i);
    LowStep(b, i);
    ValFirst([s % 10] + low);
    assert ([s % 10] + low)[1..] == low;
    Pow10Next(i);
    hide Val, Pow10, Low;
    Step(Pow10(i), Val(low), Place(a, i), Val(Low(a, i)), Place(b, i), Val(Low(b, i)), s, carry, s / 10, s % 10);
  }

  lemma Pow10Next(i: nat)
    ensures Pow10(i + 1) == 10 * Pow10(i)
  {}

  lemma AddDone(a: seq<int>, b: seq<int>, v: int, carry: int, n: nat)
    requires Digits(a) && Digits(b) && n > |a| && n > |b| && 0 <= v < Pow10(n) && carry >= 0
    requires Worth(v, carry, Pow10(n)) == Val(Low(a, n)) + Val(Low(b, n))
    ensures v == Val(a) + Val(b)
  {
    hide Val, Pow10, Low, Worth, Owing;
    LowAll(a, n);
    LowAll(b, n);
    SumFits(a, b, n);
    CarryEnds(v, carry, Pow10(n), Val(a) + Val(b));
  }

  lemma NoDigits(a: seq<int>, b: seq<int>)
    ensures Worth(Val([]), 0, Pow10(0)) == 0 && Owing(Val([]), 0, Pow10(0)) == 0 && Val(Low(a, 0)) == 0
    ensures Val(Low(b, 0)) == 0
  {
    LowNone(a);
    LowNone(b);
  }

  function Longer(a: seq<int>, b: seq<int>): (n: nat)
    ensures n >= |a| && n >= |b|
  {
    if |a| > |b| then |a| else |b|
  }

  /** add_mag */
  method AddMag(a: seq<int>, b: seq<int>) returns (sum: seq<int>)
    requires Digits(a) && Digits(b)
    ensures Digits(sum) && |sum| == Longer(a, b) + 1
    ensures Val(sum) == Val(a) + Val(b)
  {
    hide Val, Pow10, Low, Worth, Owing, Longer;
    var n := Longer(a, b) + 1;
    var out := new int[n];
    var carry, i := 0, 0;
    NoDigits(a, b);
    assert out[n..] == [];
    while i < n
      invariant i <= n && 0 <= carry <= 1
      invariant Digits(out[n - i..])
      invariant Worth(Val(out[n - i..]), carry, Pow10(i)) == Val(Low(a, i)) + Val(Low(b, i))
    {
      ghost var before := out[n - i..];
      var da := if i < |a| then a[|a| - 1 - i] else 0;
      var db := if i < |b| then b[|b| - 1 - i] else 0;
      var s := da + db + carry;
      PlaceDigit(a, i);
      PlaceDigit(b, i);
      AddStep(a, b, i, before, carry, s);
      out[n - 1 - i] := s % 10;
      carry := s / 10;
      assert out[n - 1 - i..] == [s % 10] + before;
      i := i + 1;
    }
    sum := out[..];
    assert out[n - n..] == sum;
    ValBound(sum);
    AddDone(a, b, Val(sum), carry, n);
  }

  lemma BorrowStep(p: int, u: int, da: int, va: int, db: int, vb: int, c: int, s: int, c': int, d: int)
    requires u - c * p == va - vb && s == da - db - c && d == s + 10 * c'
    ensures (d * p + u) - c' * (10 * p) == (da * p + va) - (db * p + vb)
  {
    calc {
      (d * p + u) - c' * (10 * p);
      (d - 10 * c') * p + u;
      (da - db - c) * p + u;
      da * p - db * p + (u - c * p);
    }
  }

  lemma SubStep(a: seq<int>, b: seq<int>, i: nat, low: seq<int>, was: int, s: int, borrow: int)
    requires |low| == i && s == Place(a, i) - Place(b, i) - was
    requires Owing(Val(low), was, Pow10(i)) == Val(Low(a, i)) - Val(Low(b, i))
    ensures Owing(Val([s + 10 * borrow] + low), borrow, Pow10(i + 1)) == Val(Low(a, i + 1)) - Val(Low(b, i + 1))
  {
    LowStep(a, i);
    LowStep(b, i);
    ValFirst([s + 10 * borrow] + low);
    assert ([s + 10 * borrow] + low)[1..] == low;
    Pow10Next(i);
    hide Val, Pow10, Low;
    BorrowStep(Pow10(i), Val(low), Place(a, i), Val(Low(a, i)), Place(b, i), Val(Low(b, i)), was, s, borrow,
               s + 10 * borrow);
  }

  lemma SubDone(a: seq<int>, b: seq<int>, v: int, borrow: int, n: nat)
    requires n >= |a| && n >= |b| && 0 <= v < Pow10(n) && 0 <= borrow <= 1 && Val(a) >= Val(b)
    requires Owing(v, borrow, Pow10(n)) == Val(Low(a, n)) - Val(Low(b, n))
    ensures v == Val(a) - Val(b)
  {
    hide Val, Pow10, Low, Worth, Owing;
    LowAll(a, n);
    LowAll(b, n);
    BorrowEnds(v, borrow, Pow10(n), Val(a), Val(b));
  }

  /** sub_mag, for a no less than b. */
  method SubMag(a: seq<int>, b: seq<int>) returns (diff: seq<int>)
    requires Digits(a) && Digits(b) && |b| <= |a| && Val(a) >= Val(b)
    ensures Digits(diff) && |diff| == |a| && Val(diff) == Val(a) - Val(b)
  {
    hide Val, Pow10, Low, Worth, Owing;
    var n := |a|;
    var out := new int[n];
    var borrow, i := 0, 0;
    NoDigits(a, b);
    assert out[n..] == [];
    while i < n
      invariant i <= n && 0 <= borrow <= 1
      invariant Digits(out[n - i..])
      invariant Owing(Val(out[n - i..]), borrow, Pow10(i)) == Val(Low(a, i)) - Val(Low(b, i))
    {
      ghost var before, was := out[n - i..], borrow;
      var da := a[n - 1 - i];
      var db := if i < |b| then b[|b| - 1 - i] else 0;
      var s := da - db - borrow;
      if s < 0 { borrow := 1; } else { borrow := 0; }
      PlaceDigit(a, i);
      PlaceDigit(b, i);
      SubStep(a, b, i, before, was, s, borrow);
      out[n - 1 - i] := s + 10 * borrow;
      assert out[n - 1 - i..] == [s + 10 * borrow] + before;
      i := i + 1;
    }
    diff := out[..];
    assert out[n - n..] == diff;
    ValBound(diff);
    SubDone(a, b, Val(diff), borrow, n);
  }

  /** The digits without their leading zeros, as a length stripped. */
  method Leading(s: seq<int>) returns (k: nat)
    requires |s| > 0 && Digits(s)
    ensures k < |s| && Lean(s[k..]) && Val(s[k..]) == Val(s)
    ensures forall i | 0 <= i < k :: s[i] == 0
  {
    k := 0;
    while k < |s| - 1 && s[k] == 0
      invariant k < |s| && forall i | 0 <= i < k :: s[i] == 0
    {
      k := k + 1;
    }
    ValStrip(s, k);
  }

  /** The first difference decides. */
  lemma {:induction false} FirstDifference(x: seq<int>, y: seq<int>, k: nat)
    requires Digits(x) && Digits(y) && |x| == |y| && k < |x| && x[..k] == y[..k] && x[k] < y[k]
    ensures Val(x) < Val(y)
  {
    var m := |x| - 1 - k;
    assert x == x[..k] + x[k..] && y == y[..k] + y[k..];
    ValAppend(x[..k], x[k..]);
    ValAppend(y[..k], y[k..]);
    ValFirst(x[k..]);
    ValFirst(y[k..]);
    assert x[k..][1..] == x[k + 1..] && y[k..][1..] == y[k + 1..];
    ValBound(x[k + 1..]);
    ValBound(y[k + 1..]);
    OneMore(x[k], y[k], Pow10(m));
  }

  lemma OneMore(x: int, y: int, p: int)
    requires x < y && p > 0
    ensures x * p + p <= y * p
  {
    assert (y - x) * p >= p by { AtLeast(y - x, p); }
  }

  lemma LongerIsMore(x: seq<int>, y: seq<int>)
    requires Lean(x) && Lean(y) && |x| < |y|
    ensures Val(x) < Val(y)
  {
    ValBound(x);
    ValLower(y);
    Pow10Mono(|x|, |y| - 1);
  }

  /** cmp_mag: the sign of the difference, leading zeros or not. */
  method CmpMag(a: seq<int>, b: seq<int>) returns (c: int)
    requires |a| > 0 && |b| > 0 && Digits(a) && Digits(b)
    ensures c == Sign(Val(a) - Val(b))
  {
    var i := Leading(a);
    var j := Leading(b);
    var x, y := a[i..], b[j..];
    if |x| != |y| {
      if |x| < |y| { LongerIsMore(x, y); return -1; }
      LongerIsMore(y, x);
      return 1;
    }
    var k := 0;
    while k < |x|
      invariant k <= |x| && x[..k] == y[..k]
    {
      if x[k] < y[k] {
        FirstDifference(x, y, k);
        return -1;
      }
      if x[k] > y[k] {
        FirstDifference(y, x, k);
        return 1;
      }
      k := k + 1;
    }
    assert x[..k] == x && y[..k] == y;
    c := 0;
  }

  /* -------------------------------------------------------- multiplication */

  lemma RowMath(d: int, p: int, v: int, b: int)
    ensures (d * p + v) * b == v * b + d * b * p
  {
    assert (d * p + v) * b == (d * p) * b + v * b;
    assert (d * p) * b == d * (p * b) == d * (b * p) == d * b * p;
  }

  /** One row: digit a[i] times b, added into the columns. */
  lemma RowDone(a: seq<int>, i: nat, b: seq<int>)
    requires i < |a|
    ensures Val(a[i + 1..]) * Val(b) + a[i] * Val(b) * Pow10(|a| - 1 - i) == Val(a[i..]) * Val(b)
  {
    ValFirst(a[i..]);
    assert a[i..][1..] == a[i + 1..];
    hide Val, Pow10;
    RowMath(a[i], Pow10(|a| - 1 - i), Val(a[i + 1..]), Val(b));
  }

  lemma ColumnMath(da: int, bj: int, p: int, w: int, q: int)
    ensures da * w * q + (da * bj) * (p * q) == da * (bj * p + w) * q
  {
    assert da * (bj * p + w) == da * (bj * p) + da * w;
    assert (da * (bj * p) + da * w) * q == (da * (bj * p)) * q + da * w * q;
    assert (da * (bj * p)) * q == (da * bj) * (p * q) by { Assoc(da, bj, p); Assoc(da * bj, p, q); }
  }

  /** One product into its column. */
  lemma ColumnStep(da: int, b: seq<int>, j: nat, low: nat)
    requires j < |b|
    ensures da * Val(b[j + 1..]) * Pow10(low) + (da * b[j]) * Pow10(|b| - 1 - j + low) == da * Val(b[j..]) * Pow10(low)
  {
    ValFirst(b[j..]);
    assert b[j..][1..] == b[j + 1..];
    Pow10Add(|b| - 1 - j, low);
    hide Val, Pow10;
    ColumnMath(da, b[j], Pow10(|b| - 1 - j), Val(b[j + 1..]), Pow10(low));
  }

  /** The columns of the product: acc[i + j + 1] collects a[i] * b[j]. */
  method Columns(a: seq<int>, b: seq<int>) returns (acc: array<int>)
    requires Digits(a) && Digits(b)
    ensures fresh(acc) && acc.Length == |a| + |b|
    ensures Val(acc[..]) == Val(a) * Val(b) && forall k | 0 <= k < acc.Length :: acc[k] >= 0
  {
    var n := |a| + |b|;
    acc := new int[n](_ => 0);
    assert acc[..] == seq(n, _ => 0);
    ValZeros(n);
    var i := |a|;
    assert a[i..] == [];
    hide Val, Pow10;
    while i > 0
      invariant i <= |a| && Val(acc[..]) == Val(a[i..]) * Val(b)
      invariant forall k | 0 <= k < n :: acc[k] >= 0
    {
      i := i - 1;
      AddRow(a, i, b, acc);
      RowDone(a, i, b);
    }
    assert a[0..] == a;
  }

  method AddRow(a: seq<int>, i: nat, b: seq<int>, acc: array<int>)
    requires Digits(a) && Digits(b) && i < |a| && acc.Length == |a| + |b|
    requires forall k | 0 <= k < acc.Length :: acc[k] >= 0
    modifies acc
    ensures Val(acc[..]) == old(Val(acc[..])) + a[i] * Val(b) * Pow10(|a| - 1 - i)
    ensures forall k | 0 <= k < acc.Length :: acc[k] >= 0
  {
    var da := a[i];
    var j := |b|;
    assert b[j..] == [];
    if da == 0 {
      return;
    }
    while j > 0
      invariant j <= |b| && forall k | 0 <= k < acc.Length :: acc[k] >= 0
      invariant Val(acc[..]) == old(Val(acc[..])) + da * Val(b[j..]) * Pow10(|a| - 1 - i)
    {
      j := j - 1;
      ghost var before := acc[..];
      assert da * b[j] >= 0;
      acc[i + j + 1] := acc[i + j + 1] + da * b[j];
      assert acc[..] == before[i + j + 1 := before[i + j + 1] + da * b[j]];
      ValUpdate(before, i + j + 1, before[i + j + 1] + da * b[j]);
      ColumnStep(da, b, j, |a| - 1 - i);
    }
    assert b[0..] == b;
  }

  lemma CarryStep(v: int, x: int, c: int, p: int)
    ensures v + ((x + c) % 10 - x) * p + ((x + c) / 10) * (10 * p) == v + c * p
  {
    var s := x + c;
    assert s == 10 * (s / 10) + s % 10;
    assert (s % 10 - x) * p + (s / 10) * (10 * p) == (s % 10 - x + 10 * (s / 10)) * p;
  }

  lemma ProductFits(a: seq<int>, b: seq<int>)
    requires Digits(a) && Digits(b)
    ensures 0 <= Val(a) * Val(b) < Pow10(|a| + |b|)
  {
    ValBound(a);
    ValBound(b);
    Pow10Add(|a|, |b|);
    MulBelow(Val(a), Val(b), Pow10(|a|), Pow10(|b|));
  }

  lemma MulBelow(x: int, y: int, p: int, q: int)
    requires 0 <= x < p && 0 <= y < q
    ensures 0 <= x * y < p * q
  {
    assert x * y <= x * q;
    assert x * q < p * q by { assert (p - x) * q > 0; }
  }

  lemma MulStep(acc: seq<int>, i: nat, carry: int)
    requires i < |acc|
    ensures var s := acc[i] + carry;
      Worth(Val(acc[i := s % 10]), s / 10, Pow10(|acc| - i)) == Worth(Val(acc), carry, Pow10(|acc| - i - 1))
  {
    hide Val, Pow10;
    var s := acc[i] + carry;
    ValUpdate(acc, i, s % 10);
    Pow10Next(|acc| - i - 1);
    CarryStep(Val(acc), acc[i], carry, Pow10(|acc| - i - 1));
  }

  lemma MulDone(a: seq<int>, b: seq<int>, acc: seq<int>, carry: int)
    requires Digits(a) && Digits(b) && Digits(acc) && |acc| == |a| + |b| && carry >= 0
    requires Worth(Val(acc), carry, Pow10(|acc|)) == Val(a) * Val(b)
    ensures Val(acc) == Val(a) * Val(b)
  {
    hide Val, Pow10, Worth;
    ValBound(acc);
    ProductFits(a, b);
    CarryEnds(Val(acc), carry, Pow10(|acc|), Val(a) * Val(b));
  }

  /** mul_mag: the columns, then one carry through them. */
  method MulMag(a: seq<int>, b: seq<int>) returns (prod: seq<int>)
    requires Digits(a) && Digits(b)
    ensures Digits(prod) && |prod| == |a| + |b| && Val(prod) == Val(a) * Val(b)
  {
    var acc := Columns(a, b);
    hide Val, Pow10;
    var n := acc.Length;
    var carry, i: nat := 0, n;
    WorthNone(Val(acc[..]), Pow10(0));
    hide Worth;
    ghost var total := Val(a) * Val(b);
    while i > 0
      invariant i <= n && carry >= 0
      invariant forall k | 0 <= k < n :: acc[k] >= 0 && (k >= i ==> acc[k] <= 9)
      invariant Worth(Val(acc[..]), carry, Pow10(n - i)) == total
    {
      i := i - 1;
      ghost var before := acc[..];
      MulStep(before, i, carry);
      var s := acc[i] + carry;
      acc[i] := s % 10;
      carry := s / 10;
      assert acc[..] == before[i := s % 10];
    }
    prod := acc[..];
    MulDone(a, b, prod, carry);
  }

  /* -------------------------------------------------------- long division */

  lemma NextDigit(qv: int, bv: int, rv: int, d: int, av: int)
    requires av == qv * bv + rv
    ensures av * 10 + d == (qv * 10) * bv + (rv * 10 + d)
  {
    assert (qv * bv + rv) * 10 + d == qv * bv * 10 + rv * 10 + d;
    assert (qv * 10) * bv == qv * bv * 10;
  }

  lemma LeanLength(x: seq<int>, y: seq<int>)
    requires Lean(x) && Lean(y) && Val(x) >= Val(y)
    ensures |x| >= |y|
  {
    if |x| < |y| { LongerIsMore(x, y); }
  }

  lemma OneTaken(digit: int, b: int, rem: int)
    ensures Worth(rem, digit, b) == Worth(rem - b, digit + 1, b)
  {}

  lemma TenMore(digit: int, b: int)
    requires b > 0
    ensures digit >= 10 ==> digit * b >= 10 * b
  {
    if digit >= 10 { assert (digit - 10) * b >= 0; }
  }

  lemma NineAtMost(total: int, digit: int, b: int, rem: int)
    requires total == Worth(rem, digit, b) && total < 10 * b && rem >= 0 && b > 0 && digit >= 0
    ensures digit <= 9 && total == digit * b + rem
  {
    TenMore(digit, b);
  }

  /** Subtracts b from rem as often as it goes: at most nine times. */
  method TakeAway(rem0: seq<int>, b: seq<int>) returns (digit: int, rem: seq<int>)
    requires Lean(rem0) && Lean(b) && Val(b) > 0 && Val(rem0) < 10 * Val(b)
    ensures 0 <= digit <= 9 && Lean(rem) && 0 <= Val(rem) < Val(b)
    ensures Val(rem0) == digit * Val(b) + Val(rem)
  {
    WorthNone(Val(rem0), Val(b));
    hide Val, Pow10, Worth;
    rem := rem0;
    digit := 0;
    ValBound(rem);
    var c := CmpMag(rem, b);
    while c >= 0
      invariant 0 <= digit && Lean(rem) && 0 <= Val(rem) && Val(rem0) == Worth(Val(rem), digit, Val(b))
      invariant c == Sign(Val(rem) - Val(b))
      decreases Val(rem)
    {
      LeanLength(rem, b);
      OneTaken(digit, Val(b), Val(rem));
      var tmp := SubMag(rem, b);
      var k := Leading(tmp);
      rem := tmp[k..];
      digit := digit + 1;
      ValBound(rem);
      c := CmpMag(rem, b);
    }
    NineAtMost(Val(rem0), digit, Val(b), Val(rem));
  }

  /** divmod_mag: a == q * b + r with 0 <= r < b, r without leading zeros. */
  method DivModMag(a: seq<int>, b: seq<int>) returns (q: seq<int>, r: seq<int>)
    requires Digits(a) && |a| > 0 && Lean(b) && Val(b) > 0
    ensures Digits(q) && |q| == |a| && Lean(r)
    ensures Val(a) == Val(q) * Val(b) + Val(r) && 0 <= Val(r) < Val(b)
  {
    var rem: seq<int> := [];
    q := [];
    var i := 0;
    assert a[..0] == [] && Val([]) == 0;
    WorthNone(0, Val(b));
    hide Val, Pow10, Worth;
    while i < |a|
      invariant i <= |a| && |q| == i && Digits(q)
      invariant (i == 0 && rem == []) || Lean(rem)
      invariant Val(a[..i]) == Worth(Val(rem), Val(q), Val(b)) && 0 <= Val(rem) < Val(b)
    {
      NextRem(rem, a[i]);
      var next := if |rem| > 0 && !(|rem| == 1 && rem[0] == 0) then rem + [a[i]] else [a[i]];
      var k := Leading(next);
      var digit, left := TakeAway(next[k..], b);
      DigitDone(a, i, q, Val(b), Val(rem), digit, Val(left));
      q, rem := q + [digit], left;
      i := i + 1;
    }
    assert a[..i] == a;
    r := rem;
    WorthIs(Val(r), Val(q), Val(b));
  }

  lemma WorthIs(v: int, c: int, p: int)
    ensures Worth(v, c, p) == c * p + v
  {}

  /** One more digit of the quotient. */
  lemma DigitDone(a: seq<int>, i: nat, q: seq<int>, bv: int, rv: int, digit: int, left: int)
    requires i < |a| && Val(a[..i]) == Worth(rv, Val(q), bv) && rv * 10 + a[i] == digit * bv + left
    ensures Val(a[..i + 1]) == Worth(left, Val(q + [digit]), bv)
  {
    assert a[..i + 1][..i] == a[..i] && (q + [digit])[..|q|] == q;
    NextDigit(Val(q), bv, rv, a[i], Val(a[..i]));
    DivStep(Val(q), bv, digit, left, rv * 10 + a[i]);
  }

  lemma NextRem(rem: seq<int>, d: int)
    requires rem == [] || Lean(rem)
    ensures Val(if |rem| > 0 && !(|rem| == 1 && rem[0] == 0) then rem + [d] else [d]) == Val(rem) * 10 + d
  {
    ValOne(d);
    if |rem| > 0 && !(|rem| == 1 && rem[0] == 0) {
      assert (rem + [d])[..|rem|] == rem;
    } else if |rem| == 1 {
      ValOne(rem[0]);
      assert rem == [rem[0]];
    }
  }

  lemma DivStep(qv: int, bv: int, digit: int, left: int, next: int)
    requires next == digit * bv + left
    ensures (qv * 10) * bv + next == (qv * 10 + digit) * bv + left
  {}
}
