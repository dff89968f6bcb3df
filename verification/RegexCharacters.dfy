/** What the leaves and the repeats of a tree match, said without the tables the compiler shares
 *  with the trees. */
module RegexCharacters {
  import opened Bytes
  import opened Utf8Bytes
  import opened RegexTree
  import opened RegexCompiler

  /* -------------------------------------------------------- characters */

  /** A character as `.` takes it: the first byte begins a well-formed sequence of that length
   *  (RFC 3629, section 4), and continuation bytes follow. */
  ghost predicate Character(s: Text) {
    s != [] && Begins(s[0], |s|) && forall k | 1 <= k < |s| :: Continues(s[k])
  }

  ghost predicate Begins(c: Byte, n: nat) {
    exists t: Text :: |t| == n && n > 0 && t[0] == c && WellFormed(t)
  }

  function WithLead(c: Byte, n: nat): Text
    requires 1 <= n <= 4
  {
    [c] + [0x80 + (if (n == 3 && c == 0xE0) || (n == 4 && c == 0xF0) then 0x20 else 0), 0x80, 0x80][..n - 1]
  }

  /** The first bytes, by length. */
  lemma BeginsExact(c: Byte, n: nat)
    ensures Begins(c, n) <==>
      (n == 1 && c < 0x80) || (n == 2 && c in Lead2()) || (n == 3 && c in Lead3()) || (n == 4 && c in Lead4())
  {
    if (n == 1 && c < 0x80) || (n == 2 && c in Lead2()) || (n == 3 && c in Lead3()) || (n == 4 && c in Lead4()) {
      assert WellFormed(WithLead(c, n));
    }
  }

  lemma ShapeExact(ascii: set<Byte>, w: Text, i: nat, j: nat)
    requires forall c | c in ascii :: c < 0x80
    ensures OneChar(ascii, w, i, j) <==>
      i < j <= |w| && Character(w[i..j]) && (j == i + 1 ==> w[i] in ascii)
  {
    if i < j <= |w| {
      BeginsExact(w[i], j - i);
      TailExact(w, i, j);
      hide Lead2, Lead3, Lead4, Continuation, Begins, Continues;
    }
  }

  lemma TailExact(w: Text, i: nat, j: nat)
    requires i < j <= |w|
    ensures w[i..j][0] == w[i]
    ensures (forall x | i < x < j :: w[x] in Continuation()) <==> forall k | 1 <= k < j - i :: Continues(w[i..j][k])
  {
    assert forall x | i < x < j :: w[x] == w[i..j][x - i];
    assert forall k | 1 <= k < j - i :: w[i..j][k] == w[i + k];
  }

  /** `.` takes one character, unless it is a newline. */
  lemma DotExact(w: Text, s: Span)
    ensures s in Denote(Any, w) <==>
      s.c == s.d && s.i < s.j <= |w| && Character(w[s.i..s.j]) && w[s.i..s.j] != [10]
  {
    hide OneChar, Character;
    ShapeExact(DotAscii(), w, s.i, s.j);
    if s.i < s.j <= |w| { OneByte(w, s.i, s.j); }
  }

  lemma OneByte(w: Text, i: nat, j: nat)
    requires i < j <= |w|
    ensures j == i + 1 <==> w[i..j] == [w[i]]
    ensures j == i + 1 && Character(w[i..j]) ==> w[i] < 0x80
  {
    if j == i + 1 { BeginsExact(w[i], 1); }
  }

  /** A negated class takes one character, unless it is a single byte among its members. */
  lemma NegatedExact(members: set<Byte>, w: Text, s: Span)
    ensures s in Denote(Class(members, true), w) <==>
      s.c == s.d && s.i < s.j <= |w| && Character(w[s.i..s.j]) && (s.j == s.i + 1 ==> w[s.i] !in members)
  {
    hide OneChar, Character;
    ShapeExact(NegatedAscii(members), w, s.i, s.j);
    if s.i < s.j <= |w| { OneByte(w, s.i, s.j); }
  }

  lemma ClassExact(members: set<Byte>, w: Text, s: Span)
    ensures s in Denote(Class(members, false), w) <==>
      s.c == s.d && s.j == s.i + 1 <= |w| && w[s.i] in members
  {}

  /** A class and its negation have no match in common. */
  lemma NegationApart(members: set<Byte>, w: Text)
    ensures Denote(Class(members, true), w) * Denote(Class(members, false), w) == iset{}
  {
    hide Denote, Character;
    forall s: Span ensures !(s in Denote(Class(members, true), w) && s in Denote(Class(members, false), w)) {
      NegatedExact(members, w, s);
      ClassExact(members, w, s);
    }
  }

  /** And of the ASCII bytes each is a match of exactly one of them. */
  lemma NegationCovers(members: set<Byte>, w: Text, i: nat, c: Caps)
    requires i < |w| && w[i] < 0x80
    ensures Span(i, c, i + 1, c) in Denote(Class(members, true), w) <==> w[i] !in members
    ensures Span(i, c, i + 1, c) in Denote(Class(members, false), w) <==> w[i] in members
  {
    hide Denote;
    NegatedExact(members, w, Span(i, c, i + 1, c));
    ClassExact(members, w, Span(i, c, i + 1, c));
    BeginsExact(w[i], 1);
    assert w[i..i + 1] == [w[i]];
  }

  /** `.` is a class: whatever is no newline. */
  lemma DotIsNoNewline(w: Text)
    ensures Denote(Any, w) == Denote(Class({10}, true), w)
  {
    hide Denote, Character;
    forall s: Span ensures s in Denote(Any, w) <==> s in Denote(Class({10}, true), w) {
      DotExact(w, s);
      NegatedExact({10}, w, s);
      if s.i < s.j <= |w| { OneByte(w, s.i, s.j); }
    }
  }

  /** Every well-formed multi-byte sequence is one match of both. */
  lemma WellFormedIsOne(members: set<Byte>, w: Text, i: nat, j: nat, c: Caps)
    requires i + 1 < j <= |w| && WellFormed(w[i..j])
    ensures Span(i, c, j, c) in Denote(Any, w) && Span(i, c, j, c) in Denote(Class(members, true), w)
  {
    hide Denote;
    assert Begins(w[i], j - i);
    DotExact(w, Span(i, c, j, c));
    NegatedExact(members, w, Span(i, c, j, c));
  }

  /* -------------------------------------------------------- anchors and repeats */

  lemma AnchorExact(bol: bool, eol: bool, w: Text, s: Span)
    ensures s in Denote(Empty(bol, eol), w) <==>
      s.i == s.j && s.c == s.d && !(bol && s.i > 0) && !(eol && s.i != |w|)
  {}

  /** A repeat is its body and then one repeat fewer. */
  lemma RepeatUnrolls(b: Node, lo: nat, hi: int, greedy: bool, w: Text)
    requires hi < 0 || hi >= lo
    ensures Denote(Rep(b, lo + 1, if hi < 0 then hi else hi + 1, greedy), w)
         == Denote(Cat(b, Rep(b, lo, hi, greedy)), w)
  {
    var r, k := Denote(b, w), if hi < 0 then hi else hi + 1;
    forall s: Span ensures s in Repeated(r, lo + 1, k) <==> s in Then(r, Repeated(r, lo, hi)) {
      if s in Repeated(r, lo + 1, k) {
        var n: nat :| lo + 1 <= n && (k < 0 || n <= lo + 1 || n <= k) && s in Power(r, n);
        var m: nat, e: Caps :| Joins(r, Power(r, n - 1), s, m, e);
        assert RepeatsBetween(r, lo, hi, Span(m, e, s.j, s.d));
        assert Joins(r, Repeated(r, lo, hi), s, m, e);
      }
      if s in Then(r, Repeated(r, lo, hi)) {
        var m: nat, e: Caps :| Joins(r, Repeated(r, lo, hi), s, m, e);
        var n: nat :| lo <= n && (hi < 0 || n <= lo || n <= hi) && Span(m, e, s.j, s.d) in Power(r, n);
        assert Joins(r, Power(r, n), s, m, e);
        assert s in Power(r, n + 1);
      }
    }
  }

  /** Where none is required there may be none, or one and then one fewer. */
  lemma RepeatOptional(b: Node, hi: int, greedy: bool, w: Text)
    ensures var none, all := Empty(false, false), Denote(Rep(b, 0, hi, greedy), w);
      if hi == 0 then all == Denote(none, w)
      else all == Denote(none, w) + Denote(Cat(b, Rep(b, 0, if hi < 0 then hi else hi - 1, greedy)), w)
  {
    var r := Denote(b, w);
    assert Anchored(false, false, w) == Id();
    if hi > 0 {
      AtMostUnfold(r, hi);
    } else if hi == 0 {
      AtMostNone(r);
    } else {
      AnyUnfold(r);
      AnyFrom(r, hi);
    }
  }

  lemma AnyFrom(r: Rel, hi: int)
    requires hi < 0
    ensures Repeated(r, 0, hi) == Repeated(r, 0, -1)
  {
    forall s: Span ensures s in Repeated(r, 0, hi) <==> s in Repeated(r, 0, -1) {
      if s in Repeated(r, 0, hi) {
        var n: nat :| s in Power(r, n);
        assert RepeatsBetween(r, 0, -1, s);
      }
      if s in Repeated(r, 0, -1) {
        var n: nat :| s in Power(r, n);
        assert RepeatsBetween(r, 0, hi, s);
      }
    }
  }

  lemma AnyUnfold(r: Rel)
    ensures Repeated(r, 0, -1) == Id() + Then(r, Repeated(r, 0, -1))
  {
    forall s: Span ensures s in Repeated(r, 0, -1) <==> s in Id() + Then(r, Repeated(r, 0, -1)) {
      if s in Repeated(r, 0, -1) && s !in Id() {
        var n: nat :| s in Power(r, n);
        assert n > 0;
        var m: nat, e: Caps :| Joins(r, Power(r, n - 1), s, m, e);
        assert RepeatsBetween(r, 0, -1, Span(m, e, s.j, s.d));
        assert Joins(r, Repeated(r, 0, -1), s, m, e);
      }
      if s in Id() { assert s in Power(r, 0); }
      if s in Then(r, Repeated(r, 0, -1)) {
        var m: nat, e: Caps :| Joins(r, Repeated(r, 0, -1), s, m, e);
        var n: nat :| Span(m, e, s.j, s.d) in Power(r, n);
        assert Joins(r, Power(r, n), s, m, e);
        assert s in Power(r, n + 1);
      }
    }
  }
}
