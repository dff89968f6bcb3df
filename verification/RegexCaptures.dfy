/** What the captures of a match and the references to them in a replacement stand for. */
module RegexCaptures {
  import opened Options
  import opened Bytes
  import opened Utf8Bytes
  import opened RegexTree
  import opened RegexProgram
  import L = RegexLayout
  import RegexBacktrack
  import opened RegexTheorem
  import opened RegexApi

  /* -------------------------------------------------------- a group's text is a match of its body */

  function Groups(n: Node): set<int> {
    match n
    case Cat(l, r) => Groups(l) + Groups(r)
    case Alt(l, r) => Groups(l) + Groups(r)
    case Rep(b, _, _, _) => Groups(b)
    case Group(b, g) => {g} + Groups(b)
    case _ => {}
  }

  predicate Numbered(gs: set<int>, groups: nat) { forall g | g in gs :: g < 0 || 1 <= g <= groups }

  lemma NumberedBoth(x: set<int>, y: set<int>, groups: nat)
    ensures Numbered(x + y, groups) <==> Numbered(x, groups) && Numbered(y, groups)
  {
    if Numbered(x + y, groups) {
      assert forall g | g in x :: g in x + y;
      assert forall g | g in y :: g in x + y;
    }
  }

  /** A tree's groups are numbered from 1 up to `groups`. */
  lemma {:induction false} NumberedExact(n: Node, groups: nat)
    ensures GroupsWithin(n, groups) <==> Numbered(Groups(n), groups)
  {
    match n
    case Cat(l, r) =>
      NumberedExact(l, groups);
      NumberedExact(r, groups);
      NumberedBoth(Groups(l), Groups(r), groups);
    case Alt(l, r) =>
      NumberedExact(l, groups);
      NumberedExact(r, groups);
      NumberedBoth(Groups(l), Groups(r), groups);
    case Rep(b, _, _, _) => NumberedExact(b, groups);
    case Group(b, g) =>
      NumberedExact(b, groups);
      NumberedBoth({g}, Groups(b), groups);
      assert Numbered({g}, groups) <==> g < 0 || 1 <= g <= groups by { assert g in {g}; }
    case _ =>
  }

  /** No group is inside another of its number: the parser numbers them one after another. */
  predicate Unnested(n: Node) {
    match n
    case Cat(l, r) => Unnested(l) && Unnested(r)
    case Alt(l, r) => Unnested(l) && Unnested(r)
    case Rep(b, _, _, _) => Unnested(b)
    case Group(b, g) => (g >= 0 ==> g !in Groups(b)) && Unnested(b)
    case _ => true
  }

  /** The body of a group g of n has a match from i to j. */
  ghost predicate Took(n: Node, w: Text, g: nat, i: int, j: int) {
    match n
    case Cat(l, r) => Took(l, w, g, i, j) || Took(r, w, g, i, j)
    case Alt(l, r) => Took(l, w, g, i, j) || Took(r, w, g, i, j)
    case Rep(b, _, _, _) => Took(b, w, g, i, j)
    case Group(b, h) => (h == g && 0 <= i && 0 <= j && Matched(b, w, i, j)) || Took(b, w, g, i, j)
    case _ => false
  }

  ghost predicate Matched(b: Node, w: Text, i: nat, j: nat) {
    exists c: Caps, d: Caps :: Span(i, c, j, d) in Denote(b, w)
  }

  lemma {:induction false} TookInside(n: Node, w: Text, g: nat, i: int, j: int)
    ensures Took(n, w, g, i, j) ==> g in Groups(n)
  {
    match n
    case Cat(l, r) => TookInside(l, w, g, i, j); TookInside(r, w, g, i, j);
    case Alt(l, r) => TookInside(l, w, g, i, j); TookInside(r, w, g, i, j);
    case Rep(b, _, _, _) => TookInside(b, w, g, i, j);
    case Group(b, _) => TookInside(b, w, g, i, j);
    case _ =>
  }

  /** After the match s group g has the text it had before, or one that its body matched within s. */
  ghost predicate Recorded(n: Node, w: Text, s: Span, g: nat) {
    && |s.d| == |s.c| && s.i <= s.j
    && (2 * g + 1 < |s.c| ==>
          (s.d[2 * g] == s.c[2 * g] && s.d[2 * g + 1] == s.c[2 * g + 1])
          || (Took(n, w, g, s.d[2 * g], s.d[2 * g + 1]) && s.i <= s.d[2 * g] <= s.d[2 * g + 1] <= s.j))
  }

  lemma {:induction false} Records(n: Node, w: Text, s: Span, g: nat)
    requires Unnested(n) && s in Denote(n, w)
    ensures Recorded(n, w, s, g)
    decreases n, 0
  {
    match n
    case Cat(l, r) =>
      var m: nat, e: Caps :| Joins(Denote(l, w), Denote(r, w), s, m, e);
      Records(l, w, Span(s.i, s.c, m, e), g);
      Records(r, w, Span(m, e, s.j, s.d), g);
    case Alt(l, r) =>
      if s in Denote(l, w) { Records(l, w, s, g); } else { Records(r, w, s, g); }
    case Rep(b, lo, hi, _) =>
      var k: nat :| lo <= k && (hi < 0 || k <= lo || k <= hi) && s in Power(Denote(b, w), k);
      PowerRecords(b, w, k, s, g);
    case Group(b, h) =>
      if h < 0 { Records(b, w, s, g); } else { GroupRecords(b, h, w, s, g); }
    case _ =>
      LeafSane(n, w, s);
      LeafKeeps(n, w, s);
  }

  lemma {:induction false} PowerRecords(b: Node, w: Text, k: nat, s: Span, g: nat)
    requires Unnested(b) && s in Power(Denote(b, w), k)
    ensures Recorded(b, w, s, g)
    decreases b, k + 1
  {
    if k > 0 {
      var m: nat, e: Caps :| Joins(Denote(b, w), Power(Denote(b, w), k - 1), s, m, e);
      Records(b, w, Span(s.i, s.c, m, e), g);
      PowerRecords(b, w, k - 1, Span(m, e, s.j, s.d), g);
    }
  }

  lemma {:induction false} GroupRecords(b: Node, h: nat, w: Text, s: Span, g: nat)
    requires Unnested(Group(b, h)) && s in Denote(Group(b, h), w)
    ensures Recorded(Group(b, h), w, s, g)
    decreases b, 1
  {
    var m: nat, e: Caps :| Joins(Mark(2 * h), Then(Denote(b, w), Mark(2 * h + 1)), s, m, e);
    var m2: nat, e2: Caps :| Joins(Denote(b, w), Mark(2 * h + 1), Span(m, e, s.j, s.d), m2, e2);
    Records(b, w, Span(m, e, m2, e2), g);
    if g == h && 2 * g + 1 < |s.c| {
      TookInside(b, w, g, e2[2 * g], e2[2 * g + 1]);
      assert e2[2 * g] == s.i && m2 == s.j;
      assert Matched(b, w, s.i, s.j);
    }
  }

  /** In each match found, a group that took part has a text its own body matches, inside the match. */
  lemma GroupIsItsBody(n: Node, groups: nat, w: Text, at: nat, g: nat)
    requires GroupsWithin(n, groups) && Unnested(n) && 1 <= g <= groups
    requires Backtracked(n, groups, w, at).Some?
    ensures var m := Backtracked(n, groups, w, at).value;
      |m| == 2 * (groups + 1)
      && ((m[2 * g] == -1 && m[2 * g + 1] == -1)
          || (Took(n, w, g, m[2 * g], m[2 * g + 1]) && m[0] <= m[2 * g] <= m[2 * g + 1] <= m[1]))
  {
    hide Denote, Backtracked, InLanguage, Took;
    FoundIs(n, groups, w, at);
    var m := Backtracked(n, groups, w, at).value;
    var c := RegexBacktrack.Blanks(|m|);
    var d: Caps :| Span(m[0], Put(c, 0, m[0]), m[1], d) in Denote(n, w) && m == Put(d, 1, m[1]);
    Records(n, w, Span(m[0], Put(c, 0, m[0]), m[1], d), g);
  }

  /* -------------------------------------------------------- replacements */

  /** What a replacement is made of: bytes that stand for themselves, $$, $0 to $9, ${...}, and a
   *  dollar before any other byte, which is left alone. */
  datatype Part = Plain(c: Byte) | Dollar | Digit(g: nat) | Braced(name: Text) | Stray(c: Byte)

  function SpeltOne(p: Part): Text {
    match p
    case Plain(c) => [c]
    case Dollar => ['$' as int, '$' as int]
    case Digit(g) => ['$' as int, ('0' as int + g) % 256]
    case Braced(name) => ['$' as int, '{' as int] + name + ['}' as int]
    case Stray(c) => ['$' as int, c]
  }

  function Spelt(ps: seq<Part>): Text {
    if ps == [] then [] else SpeltOne(ps[0]) + Spelt(ps[1..])
  }

  /** A group's number in braces, or its name: of several groups the last. */
  ghost predicate Refers(names: seq<Option<Text>>, name: Text, g: nat) {
    && g < |names|
    && (if name != [] && AllDigits(name) then name != [] && Decimally(name, g)
        else g > 0 && names[g] == Some(name) && forall k | g < k < |names| :: names[k] != Some(name))
  }

  /** name spells g in decimal, perhaps with zeros before it. */
  predicate Decimally(name: Text, g: nat)
    decreases |name|
  {
    if name == [] then g == 0
    else name[|name| - 1] == '0' as int + g % 10 && Decimally(name[..|name| - 1], g / 10)
  }

  ghost predicate Proper(names: seq<Option<Text>>, p: Part) {
    match p
    case Plain(c) => c != '$' as int
    case Dollar => true
    case Digit(g) => g < 10 && g < |names|
    case Braced(name) =>
      (forall k | 0 <= k < |name| :: name[k] != '}' as int) && exists g: nat :: Refers(names, name, g)
    case Stray(c) => c != '$' as int && c != '{' as int && !('0' as int <= c <= '9' as int)
  }

  ghost function Captured(w: Text, m: Caps, g: nat): Text
    requires 2 * g + 1 < |m|
  {
    if 0 <= m[2 * g] <= m[2 * g + 1] <= |w| then w[m[2 * g]..m[2 * g + 1]] else []
  }

  ghost function PutOne(w: Text, m: Caps, names: seq<Option<Text>>, p: Part): Text
    requires |m| == 2 * |names| && Proper(names, p)
  {
    match p
    case Plain(c) => [c]
    case Dollar => ['$' as int]
    case Digit(g) => Captured(w, m, g)
    case Braced(name) => var g: nat :| Refers(names, name, g); Captured(w, m, g)
    case Stray(c) => ['$' as int, c]
  }

  ghost function PutAll(w: Text, m: Caps, names: seq<Option<Text>>, ps: seq<Part>): Text
    requires |m| == 2 * |names| && forall p | p in ps :: Proper(names, p)
  {
    if ps == [] then [] else PutOne(w, m, names, ps[0]) + PutAll(w, m, names, ps[1..])
  }

  lemma {:induction false} SpellsNumber(name: Text, g: nat)
    requires AllDigits(name) && Decimally(name, g)
    ensures Number(name) == g
    decreases |name|
  {
    if name != [] { SpellsNumber(name[..|name| - 1], g / 10); }
  }

  lemma RefersNamed(names: seq<Option<Text>>, name: Text, g: nat)
    requires Refers(names, name, g)
    ensures Named(names, name) == g
  {
    if name != [] && AllDigits(name) {
      SpellsNumber(name, g);
    } else {
      var l := LastNamed(names, name);
    }
  }

  lemma CapturedIs(w: Text, m: Caps, g: nat)
    requires 2 * g + 1 < |m| && Paired(m, {}, |w|)
    ensures GroupText(w, m, g) == Captured(w, m, g)
  {
    assert PairedAt(m, g);
  }

  lemma {:induction false} ClosesAt(rep: Text, i: nat, c: nat)
    requires i <= c < |rep| && rep[c] == CLOSE && forall k | i <= k < c :: rep[k] != CLOSE
    ensures CloseAt(rep, i) == c
    decreases c - i
  {
    if i < c { ClosesAt(rep, i + 1, c); }
  }

  /** The replacement from i on is a part and then the rest. */
  lemma ExpandPart(w: Text, m: Caps, names: seq<Option<Text>>, rep: Text, i: nat, p: Part)
    requires |m| == 2 * |names| && Paired(m, {}, |w|) && Proper(names, p)
    requires var n := |SpeltOne(p)|; i + n <= |rep| && rep[i..i + n] == SpeltOne(p)
    ensures Expand(w, m, names, rep, i) == PutOne(w, m, names, p) + Expand(w, m, names, rep, i + |SpeltOne(p)|)
  {
    hide Paired, GroupText, Named, Captured, Refers, Expand;
    var x := SpeltOne(p);
    assert forall k | i <= k < i + |x| :: rep[k] == rep[i..i + |x|][k - i];
    if p.Braced? {
      ExpandBraced(w, m, names, rep, i, p.name);
    } else if p.Stray? {
      ExpandStep(w, m, names, rep, i, i + 1, ['$' as int]);
      ExpandStep(w, m, names, rep, i + 1, i + 2, [p.c]);
    } else {
      if p.Digit? { CapturedIs(w, m, p.g); }
      ExpandStep(w, m, names, rep, i, i + |x|, PutOne(w, m, names, p));
    }
  }

  lemma ExpandBraced(w: Text, m: Caps, names: seq<Option<Text>>, rep: Text, i: nat, name: Text)
    requires |m| == 2 * |names| && Paired(m, {}, |w|) && Proper(names, Braced(name))
    requires var n := |name| + 3; i + n <= |rep| && rep[i..i + n] == SpeltOne(Braced(name))
    ensures Expand(w, m, names, rep, i)
         == PutOne(w, m, names, Braced(name)) + Expand(w, m, names, rep, i + |name| + 3)
  {
    hide Paired, GroupText, Named, Captured, Expand;
    var g: nat :| Refers(names, name, g) && PutOne(w, m, names, Braced(name)) == Captured(w, m, g);
    RefersNamed(names, name, g);
    CapturedIs(w, m, g);
    hide Refers;
    var x, c := SpeltOne(Braced(name)), i + 2 + |name|;
    assert forall k | i <= k < i + |x| :: rep[k] == rep[i..i + |x|][k - i];
    assert rep[i] == x[0] && rep[i + 1] == x[1] && rep[c] == x[c - i];
    forall k | i + 2 <= k < c ensures rep[k] == name[k - i - 2] { assert rep[k] == x[k - i]; }
    assert rep[i + 2..c] == name;
    ClosesAt(rep, i + 2, c);
    ExpandStep(w, m, names, rep, i, c + 1, Captured(w, m, g));
  }

  /** Expanding what is spelt out of such parts puts the text of each in turn. */
  lemma {:induction false} ExpandParts(w: Text, m: Caps, names: seq<Option<Text>>, ps: seq<Part>, before: Text)
    requires |m| == 2 * |names| && Paired(m, {}, |w|) && forall p | p in ps :: Proper(names, p)
    ensures Expand(w, m, names, before + Spelt(ps), |before|) == PutAll(w, m, names, ps)
    decreases |ps|
  {
    hide Paired, Proper, PutOne, Expand, SpeltOne;
    var rep := before + Spelt(ps);
    if ps == [] {
      ExpandEnd(w, m, names, rep);
    } else {
      var x := SpeltOne(ps[0]);
      Cut(before, x, Spelt(ps[1..]));
      ExpandPart(w, m, names, rep, |before|, ps[0]);
      ExpandParts(w, m, names, ps[1..], before + x);
    }
  }

  lemma Cut(a: Text, x: Text, b: Text)
    ensures var s := a + (x + b);
      |a| + |x| <= |s| && s[|a|..|a| + |x|] == x && (a + x) + b == s && |a + x| == |a| + |x|
  {}

  lemma ExpandEnd(w: Text, m: Caps, names: seq<Option<Text>>, rep: Text)
    requires |m| == 2 * |names| && Paired(m, {}, |w|)
    ensures Expand(w, m, names, rep, |rep|) == []
  {}

  /* -------------------------------------------------------- where the next search starts */

  /** The character that an empty match stands before is passed whole. */
  lemma PassesCharacter(w: Text, i: nat, j: nat, m: Caps)
    requires i < j <= |w| && WellFormed(w[i..j]) && Span0(w, m) && m[0] == m[1] == i
    ensures RegexApi.Onward(w, m) == j
  {
    assert w[i..j][0] == w[i];
  }
}
