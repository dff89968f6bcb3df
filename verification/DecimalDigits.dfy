/** Digit strings, most significant first, and the number they stand for. */
module DecimalDigits {
  function Pow10(n: nat): (p: int)
    ensures p >= 1
  {
    if n == 0 then 1 else 10 * Pow10(n - 1)
  }

  /** The positional value of a sequence of integers; digits are the case 0..9. */
  function Val(s: seq<int>): int {
    if s == [] then 0 else Val(s[..|s| - 1]) * 10 + s[|s| - 1]
  }

  predicate Digits(s: seq<int>) {
    forall i | 0 <= i < |s| :: 0 <= s[i] <= 9
  }

  /** No leading zero, but for zero itself. */
  predicate Lean(s: seq<int>) {
    Digits(s) && |s| > 0 && (|s| > 1 ==> s[0] != 0)
  }

  lemma {:induction false} Pow10Add(m: nat, n: nat)
    ensures Pow10(m + n) == Pow10(m) * Pow10(n)
  {
    if m > 0 {
      Pow10Add(m - 1, n);
      assert Pow10(m + n) == 10 * Pow10(m - 1 + n);
      Assoc(10, Pow10(m - 1), Pow10(n));
    }
  }

  lemma Assoc(x: int, y: int, z: int)
    ensures x * (y * z) == (x * y) * z
  {}

  lemma {:induction false} Pow10Mono(m: nat, n: nat)
    requires m <= n
    ensures Pow10(m) <= Pow10(n)
  {
    if m < n { Pow10Mono(m, n - 1); }
  }

  lemma {:induction false} ValAppend(x: seq<int>, y: seq<int>)
    ensures Val(x + y) == Val(x) * Pow10(|y|) + Val(y)
  {
    if y == [] {
      assert x + y == x;
    } else {
      var n := |y| - 1;
      ValAppend(x, y[..n]);
      assert (x + y)[..|x + y| - 1] == x + y[..n];
      Times10(Val(x), Pow10(n), Val(y[..n]), y[n]);
    }
  }

  lemma Times10(v: int, p: int, w: int, d: int)
    ensures (v * p + w) * 10 + d == v * (10 * p) + (w * 10 + d)
  {}

  lemma ValOne(d: int)
    ensures Val([d]) == d
  {
    assert [d][..0] == [];
  }

  lemma {:induction false} ValBound(s: seq<int>)
    requires Digits(s)
    ensures 0 <= Val(s) < Pow10(|s|)
  {
    if s != [] {
      ValBound(s[..|s| - 1]);
    }
  }

  /** A leading digit d counts d times its place. */
  lemma ValFirst(s: seq<int>)
    requires |s| > 0
    ensures Val(s) == s[0] * Pow10(|s| - 1) + Val(s[1..])
  {
    hide Val, Pow10;
    assert s == [s[0]] + s[1..];
    ValAppend([s[0]], s[1..]);
    ValOne(s[0]);
  }

  lemma ValLower(s: seq<int>)
    requires Digits(s) && |s| > 0 && s[0] != 0
    ensures Val(s) >= Pow10(|s| - 1)
  {
    ValFirst(s);
    ValBound(s[1..]);
    AtLeast(s[0], Pow10(|s| - 1));
  }

  lemma AtLeast(d: int, p: int)
    requires d >= 1 && p >= 0
    ensures d * p >= p
  {}

  /** Changing one place changes the value by that much at that place. */
  lemma {:induction false} ValUpdate(s: seq<int>, k: nat, v: int)
    requires k < |s|
    ensures Val(s[k := v]) == Val(s) + (v - s[k]) * Pow10(|s| - 1 - k)
  {
    var n := |s| - 1;
    if k == n {
      assert s[k := v][..n] == s[..n];
    } else {
      ValUpdate(s[..n], k, v);
      assert s[k := v][..n] == s[..n][k := v];
      Times10(v - s[k], Pow10(n - 1 - k), Val(s[..n]), s[n]);
      assert (Val(s[..n]) + (v - s[k]) * Pow10(n - 1 - k)) * 10 + s[n] == Val(s) + (v - s[k]) * (10 * Pow10(n - 1 - k));
    }
  }

  /** The last i places of s, and the digit before them; places s does not have hold 0. */
  function Low(s: seq<int>, i: nat): seq<int> {
    if i >= |s| then s else s[|s| - i..]
  }

  function Place(s: seq<int>, i: nat): int {
    if i < |s| then s[|s| - 1 - i] else 0
  }

  lemma LowStep(s: seq<int>, i: nat)
    ensures Val(Low(s, i + 1)) == Place(s, i) * Pow10(i) + Val(Low(s, i))
  {
    if i < |s| {
      var t := Low(s, i + 1);
      assert t == s[|s| - 1 - i..];
      ValFirst(t);
      assert t[1..] == Low(s, i);
    }
  }

  lemma {:induction false} ValZeros(n: nat)
    ensures Val(seq(n, _ => 0)) == 0
  {
    if n > 0 {
      ValZeros(n - 1);
      assert seq(n, _ => 0)[..n - 1] == seq(n - 1, _ => 0);
    }
  }

  /** Leading zeros do not count. */
  lemma {:induction false} ValStrip(s: seq<int>, k: nat)
    requires k <= |s| && forall i | 0 <= i < k :: s[i] == 0
    ensures Val(s) == Val(s[k..])
  {
    if k > 0 {
      ValStrip(s, k - 1);
      ValFirst(s[k - 1..]);
      assert s[k - 1..][1..] == s[k..];
    }
  }

  lemma {:induction false} ValZero(s: seq<int>)
    requires Digits(s)
    ensures Val(s) == 0 <==> forall i | 0 <= i < |s| :: s[i] == 0
  {
    if s != [] {
      var n := |s| - 1;
      ValZero(s[..n]);
      ValBound(s[..n]);
      assert forall i | 0 <= i < n :: s[i] == s[..n][i];
    }
  }

  lemma {:induction false} ValSame(x: seq<int>, y: seq<int>)
    requires Digits(x) && Digits(y) && |x| == |y| && Val(x) == Val(y)
    ensures x == y
  {
    if x != [] {
      var n := |x| - 1;
      ValBound(x[..n]);
      ValBound(y[..n]);
      assert Val(x) == Val(x[..n]) * 10 + x[n] && Val(y) == Val(y[..n]) * 10 + y[n];
      ValSame(x[..n], y[..n]);
      assert x == x[..n] + [x[n]] && y == y[..n] + [y[n]];
    }
  }
}
