/** Decimal arithmetic (runtime/src/dec.c) against exact numbers. */
module DecimalOps {
  import opened DecimalDigits
  import opened DecimalKernels
  import opened DecimalValue

  function Signed(neg: bool, n: int): int {
    if neg then -n else n
  }

  lemma SignedValue(neg: bool, n: int, k: int)
    ensures n == 0 ==> Times(Signed(neg, n), k) == 0.0
  {
    TimesZero(k);
  }

  /** make: leading zeros go, and zero has one form. */
  method Make(neg: bool, digits: seq<int>, exp: int) returns (d: Dec)
    requires |digits| > 0 && Digits(digits)
    ensures Good(d) && Value(d) == Times(Signed(neg, Val(digits)), exp)
    ensures Val(d.ds) == Val(digits) && |d.ds| <= |digits|
    ensures Val(digits) != 0 ==> d.neg == neg && d.exp == exp
    ensures Lean(digits) && Val(digits) != 0 ==> d.ds == digits
  {
    var start := Leading(digits);
    var ds := digits[start..];
    ValZero(ds);
    if forall i | 0 <= i < |ds| :: ds[i] == 0 {
      d := Dec(false, [0], 0);
      ValOne(0);
      TimesZero(0);
      SignedValue(neg, Val(digits), exp);
    } else {
      d := Dec(neg, ds, exp);
    }
  }

  /* -------------------------------------------------------- rounding */

  /** Adds one to a digit string: the nines turn over, and all nines gain a digit. */
  method Increment(digits: seq<int>) returns (up: seq<int>)
    requires |digits| > 0 && Digits(digits)
    ensures Digits(up) && Val(up) == Val(digits) + 1 && |digits| <= |up| <= |digits| + 1
  {
    hide Val;
    up := digits;
    var i := |up| - 1;
    while i >= 0 && up[i] == 9
      invariant -1 <= i < |up| && |up| == |digits| && Digits(up)
      invariant forall k | i < k < |up| :: up[k] == 0
      invariant Val(up) + Pow10(|up| - 1 - i) == Val(digits) + 1
    {
      ValUpdate(up, i, 0);
      Pow10Next(|up| - 1 - i);
      Nine(Pow10(|up| - 1 - i));
      up := up[i := 0];
      i := i - 1;
    }
    if i < 0 {
      ValFirst([1] + up);
      assert ([1] + up)[1..] == up;
      up := [1] + up;
    } else {
      ValUpdate(up, i, up[i] + 1);
      up := up[i := up[i] + 1];
    }
  }

  lemma Nine(p: int)
    ensures (0 - 9) * p + 10 * p == p
  {}

  /** The digits after the first dropped one: are they all zero? */
  method TailNonzero(ds: seq<int>, from: nat) returns (nonzero: bool)
    requires from <= |ds| && Digits(ds)
    ensures nonzero <==> Val(ds[from..]) != 0
  {
    nonzero := false;
    var i := from;
    while i < |ds|
      invariant from <= i <= |ds|
      invariant nonzero <==> exists k :: from <= k < i && ds[k] != 0
    {
      if ds[i] != 0 { nonzero := true; }
      i := i + 1;
    }
    ValZero(ds[from..]);
    if nonzero {
      var k :| from <= k < |ds| && ds[k] != 0;
      assert ds[from..][k - from] != 0;
    }
  }

  /** What the dropped digits say: the first against five, and whether anything follows. */
  lemma Dropped(first: int, tail: int, p: int, keep: int, up: bool)
    requires 0 <= first <= 9 && 0 <= tail < p && p > 0
    requires up == (first > 5 || (first == 5 && (tail != 0 || keep % 2 != 0)))
    ensures Nearest(keep * (10 * p) + (first * p + tail), 10 * p, if up then keep + 1 else keep)
  {
    var n := keep * (10 * p) + (first * p + tail);
    if up {
      assert n - (keep + 1) * (10 * p) == first * p + tail - 10 * p;
      assert first * p >= 5 * p by { MulAtLeast(first, 5, p); }
      assert first * p <= 9 * p by { MulAtLeast(9, first, p); }
      if first > 5 { MulAtLeast(first, 6, p); }
    } else {
      assert n - keep * (10 * p) == first * p + tail;
      assert 0 <= first * p <= 5 * p by { MulAtLeast(5, first, p); MulAtLeast(first, 0, p); }
      if first < 5 { MulAtLeast(4, first, p); }
    }
  }

  lemma SplitMath(v: int, x: int, q: int, w: int, p: int, f: int, u: int)
    requires v == x * q + w && q == 10 * p && w == f * p + u
    ensures v == x * (10 * p) + (f * p + u)
  {}

  lemma Split(ds: seq<int>, keep: nat)
    requires keep < |ds| && Digits(ds)
    ensures var p := Pow10(|ds| - keep - 1);
      Pow10(|ds| - keep) == 10 * p && 0 <= Val(ds[keep + 1..]) < p
      && Val(ds) == Val(ds[..keep]) * (10 * p) + (ds[keep] * p + Val(ds[keep + 1..]))
  {
    hide Val, Pow10;
    assert ds == ds[..keep] + ds[keep..];
    ValFirst(ds[keep..]);
    assert ds[keep..][1..] == ds[keep + 1..];
    Pow10Next(|ds| - keep - 1);
    ValAppend(ds[..keep], ds[keep..]);
    ValBound(ds[keep + 1..]);
    SplitMath(Val(ds), Val(ds[..keep]), Pow10(|ds| - keep), Val(ds[keep..]), Pow10(|ds| - keep - 1), ds[keep],
              Val(ds[keep + 1..]));
  }

  /** The last digit decides parity. */
  lemma LastParity(s: seq<int>)
    requires |s| > 0
    ensures Val(s) % 2 == s[|s| - 1] % 2
  {
    assert Val(s) == 2 * (5 * Val(s[..|s| - 1])) + s[|s| - 1];
  }

  /** Everything is dropped when the place is above the number: zero, or one unit of it. */
  lemma AllDropped(ds: seq<int>, drop: nat)
    requires Digits(ds) && |ds| > 0 && drop > |ds|
    ensures Nearest(Val(ds), Pow10(drop), 0)
  {
    ValBound(ds);
    Pow10Mono(|ds|, drop - 1);
    Pow10Next(drop - 1);
  }

  /** The first dropped digit, the ones after it and the last kept one decide. */
  lemma RoundDigits(ds: seq<int>, keep: nat, rest: bool, up: bool)
    requires keep < |ds| && Digits(ds) && rest == (Val(ds[keep + 1..]) != 0)
    requires up == (ds[keep] > 5 || (ds[keep] == 5 && (rest || (keep > 0 && ds[keep - 1] % 2 != 0))))
    ensures Nearest(Val(ds), Pow10(|ds| - keep), if up then Val(ds[..keep]) + 1 else Val(ds[..keep]))
  {
    if keep == 0 { NoneKept(ds); } else { LastParity(ds[..keep]); }
    hide Val, Pow10, Nearest;
    Split(ds, keep);
    Dropped(ds[keep], Val(ds[keep + 1..]), Pow10(|ds| - keep - 1), Val(ds[..keep]), up);
  }

  /** reduce_exp: d rounded half-even so that its exponent is `target`. */
  method ReduceExp(d: Dec, target: int) returns (r: Dec)
    requires Good(d)
    ensures Good(r)
    ensures target <= d.exp ==> r == d
    ensures target > d.exp ==> Nearest(Val(d.ds), Pow10(target - d.exp), Val(r.ds))
    ensures target > d.exp && Val(r.ds) != 0 ==> r.exp == target && r.neg == d.neg
  {
    hide Val, Pow10, Nearest;
    var drop := target - d.exp;
    if drop <= 0 {
      return d;
    }
    var nd := |d.ds|;
    if drop >= nd {
      var roundUp := false;
      if drop == nd {
        var rest := TailNonzero(d.ds, 1);
        roundUp := d.ds[0] > 5 || (d.ds[0] == 5 && rest);
        RoundDigits(d.ds, 0, rest, roundUp);
        NoneKept(d.ds);
      } else {
        AllDropped(d.ds, drop);
      }
      ValOne(0);
      ValOne(1);
      r := Make(d.neg, if roundUp then [1] else [0], target);
      return;
    }
    var keep := nd - drop;
    var digits := d.ds[..keep];
    var first := d.ds[keep];
    var rest := TailNonzero(d.ds, keep + 1);
    var up := first > 5 || (first == 5 && (rest || digits[keep - 1] % 2 != 0));
    RoundDigits(d.ds, keep, rest, up);
    if up { digits := Increment(digits); }
    r := Make(d.neg, digits, target);
  }

  lemma NoneKept(ds: seq<int>)
    ensures Val(ds[..0]) == 0
  {
    assert ds[..0] == [];
  }

  /** So the number is rounded half-even at that place. */
  lemma ReducedValue(d: Dec, target: int, r: Dec)
    requires Good(d) && Good(r) && target > d.exp
    requires Nearest(Val(d.ds), Pow10(target - d.exp), Val(r.ds))
    requires Val(r.ds) != 0 ==> r.exp == target && r.neg == d.neg
    ensures HalfEven(Value(d), target, Value(r))
  {
    var drop := target - d.exp;
    if d.neg { NearestNeg(Val(d.ds), Pow10(drop), Val(r.ds)); }
    NearestHalfEven(Coef(d), Signed(d.neg, Val(r.ds)), d.exp, drop);
    if Val(r.ds) == 0 {
      TimesZero(0);
      TimesZero(target);
    }
  }

  /** round_to */
  method RoundTo(d: Dec, digits: int) returns (r: Dec)
    requires Good(d)
    ensures Limited(d, digits, r)
    ensures var n := if digits <= 0 then 28 else digits;
      if |d.ds| <= n then r == d else HalfEven(Value(d), d.exp + |d.ds| - n, Value(r))
  {
    var n := if digits <= 0 then 28 else digits;
    if |d.ds| <= n {
      return d;
    }
    r := ReduceExp(d, d.exp + (|d.ds| - n));
    ReducedValue(d, d.exp + (|d.ds| - n), r);
  }

  predicate EndsInZero(d: Dec) { d.exp < 0 && |d.ds| > 1 && d.ds[|d.ds| - 1] == 0 }

  function Shorter(d: Dec): Dec
    requires EndsInZero(d)
  {
    Dec(d.neg, d.ds[..|d.ds| - 1], d.exp + 1)
  }

  /** The same number without the trailing zeros behind the point. */
  function Normalized(d: Dec): (r: Dec)
    ensures !EndsInZero(r) && d.exp <= r.exp && (r.exp <= 0 || r == d) && r.exp + |r.ds| == d.exp + |d.ds|
    decreases |d.ds|
  {
    if EndsInZero(d) then Normalized(Shorter(d)) else d
  }

  lemma ShorterSame(d: Dec)
    requires Good(d) && EndsInZero(d)
    ensures Good(Shorter(d)) && Value(Shorter(d)) == Value(d)
  {
    DropZero(d.ds, d.neg, d.exp);
  }

  lemma {:induction false} NormalizedSame(d: Dec)
    requires Good(d)
    ensures Good(Normalized(d)) && Value(Normalized(d)) == Value(d)
    decreases |d.ds|
  {
    if EndsInZero(d) {
      ShorterSame(d);
      NormalizedSame(Shorter(d));
    }
  }

  /** The first n digits of d, with the exponent that goes with them. */
  function Trimmed(d: Dec, n: nat): Dec
    requires n <= |d.ds|
  {
    Dec(d.neg, d.ds[..n], d.exp + (|d.ds| - n))
  }

  /** normalize: trailing zeros go while the exponent is negative. */
  method Normalize(d: Dec) returns (r: Dec)
    requires Good(d)
    ensures Good(r) && Value(r) == Value(d) && r == Normalized(d)
  {
    hide Val, Value, Good, Normalized, Trimmed;
    NormalizedSame(d);
    ZeroAlone(d);
    if forall i | 0 <= i < |d.ds| :: d.ds[i] == 0 {
      return d;
    }
    var nd, exp := |d.ds|, d.exp;
    TrimmedAll(d);
    while exp < 0 && nd > 1 && d.ds[nd - 1] == 0
      invariant 1 <= nd <= |d.ds| && exp == d.exp + (|d.ds| - nd) && Good(Trimmed(d, nd)) && Val(d.ds[..nd]) != 0
      invariant Normalized(Trimmed(d, nd)) == Normalized(d)
    {
      TrimOne(d, nd);
      nd := nd - 1;
      exp := exp + 1;
    }
    TrimmedDone(d, nd);
    r := Make(d.neg, d.ds[..nd], exp);
  }

  lemma ZeroAlone(d: Dec)
    requires Good(d)
    ensures |d.ds| > 0 && ((forall i | 0 <= i < |d.ds| :: d.ds[i] == 0) <==> Val(d.ds) == 0)
    ensures Val(d.ds) == 0 ==> Normalized(d) == d
  {
    ZeroDec(d);
    ValZero(d.ds);
  }

  lemma TrimmedAll(d: Dec)
    requires Good(d)
    ensures Trimmed(d, |d.ds|) == d && d.ds[..|d.ds|] == d.ds
  {}

  lemma TrimOne(d: Dec, n: nat)
    requires 1 < n <= |d.ds| && d.exp + (|d.ds| - n) < 0 && d.ds[n - 1] == 0 && Good(Trimmed(d, n))
    requires Val(d.ds[..n]) != 0
    ensures Good(Trimmed(d, n - 1)) && Val(d.ds[..n - 1]) != 0
    ensures Normalized(Trimmed(d, n - 1)) == Normalized(Trimmed(d, n))
  {
    assert d.ds[..n][..n - 1] == d.ds[..n - 1];
    ShorterSame(Trimmed(d, n));
    DropZero(d.ds[..n], d.neg, 0);
  }

  lemma TrimmedDone(d: Dec, n: nat)
    requires 1 <= n <= |d.ds| && Good(Trimmed(d, n))
    requires d.exp + (|d.ds| - n) >= 0 || n == 1 || d.ds[n - 1] != 0
    ensures Lean(d.ds[..n]) && Digits(d.ds[..n])
    ensures Normalized(Trimmed(d, n)) == Dec(d.neg, d.ds[..n], d.exp + (|d.ds| - n))
  {}

  lemma DropZero(s: seq<int>, neg: bool, e: int)
    requires |s| > 1 && s[|s| - 1] == 0
    ensures Val(s) == Val(s[..|s| - 1]) * 10
    ensures Times(Signed(neg, Val(s)), e) == Times(Signed(neg, Val(s[..|s| - 1])), e + 1)
  {
    var n := Val(s[..|s| - 1]);
    TimesShift(Signed(neg, n), e, 1);
    assert Pow10(1) == 10 * Pow10(0) == 10;
    assert Signed(neg, n) * Pow10(1) == Signed(neg, Val(s));
  }

  /* -------------------------------------------------------- alignment */

  lemma Padded(ds: seq<int>, k: nat)
    ensures Val(ds + seq(k, _ => 0)) == Val(ds) * Pow10(k)
  {
    ValAppend(ds, seq(k, _ => 0));
    ValZeros(k);
  }

  /** scale: the coefficient times 10^k. */
  method Scale(d: Dec, k: int) returns (r: Dec)
    requires Good(d)
    ensures Good(r) && Value(r) == Value(d)
    ensures k <= 0 ==> r == d
    ensures k >= 0 ==> Val(r.ds) == Val(d.ds) * Pow10(k)
    ensures k > 0 && Val(d.ds) != 0 ==> r.neg == d.neg && r.exp == d.exp - k && |r.ds| == |d.ds| + k
    ensures Val(d.ds) == 0 ==> r == Dec(false, [0], 0)
  {
    if k <= 0 {
      if k == 0 { assert Val(d.ds) * Pow10(0) == Val(d.ds); }
      return d;
    }
    var zeros := seq(k, _ => 0);
    Padded(d.ds, k);
    Aligned(d, k);
    ZeroTimes(Val(d.ds), Pow10(k));
    hide Val, Pow10, Ten;
    r := Make(d.neg, d.ds + zeros, d.exp - k);
    ZeroDec(d);
    ZeroDec(r);
  }

  lemma ZeroDec(d: Dec)
    requires Good(d)
    ensures Val(d.ds) == 0 <==> d == Dec(false, [0], 0)
    ensures Val(d.ds) == 0 ==> Value(d) == 0.0
    ensures Val(d.ds) != 0 ==> d.ds[0] != 0
  {
    ValOne(0);
    TimesZero(0);
    ValZero(d.ds);
  }

  lemma ZeroTimes(v: int, p: int)
    requires p > 0
    ensures v * p == 0 <==> v == 0
  {}

  lemma Aligned(d: Dec, k: nat)
    ensures Value(d) == Times(Signed(d.neg, Val(d.ds) * Pow10(k)), d.exp - k)
  {
    TimesShift(Coef(d), d.exp - k, k);
    assert (-Val(d.ds)) * Pow10(k) == -(Val(d.ds) * Pow10(k));
  }
}
