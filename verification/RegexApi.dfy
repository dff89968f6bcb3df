/** Finding all matches, replacing and splitting (runtime/src/regex.c): one
 *  search after another, each from where the last one left off. */
module RegexApi {
  import opened Options
  import Bytes
  import opened RegexTree
  import opened RegexProgram
  import L = RegexLayout
  import RegexBacktrack
  import RegexSearch
  import opened RegexTheorem

  const DOLLAR: Byte := '$' as int
  const OPEN: Byte := '{' as int
  const CLOSE: Byte := '}' as int

  /** A match: group 0 lies in the subject. */
  predicate Span0(w: Text, m: Caps) { |m| >= 2 && 0 <= m[0] <= m[1] <= |w| }

  /** seqlen: the bytes of the character at i, by its first one. */
  function SeqLen(w: Text, i: nat): (k: nat)
    requires i < |w|
    ensures 1 <= k && i + k <= |w|
  {
    var n := if w[i] >= 0xF0 then 4 else if w[i] >= 0xE0 then 3 else if w[i] >= 0xC0 then 2 else 1;
    if i + n > |w| then 1 else n
  }

  /** Where the next search starts: after the match, or past the character
   *  that an empty one stands before. */
  function Onward(w: Text, m: Caps): (at: nat)
    requires Span0(w, m)
    ensures m[0] < at && m[1] <= at
  {
    if m[1] > m[0] then m[1] else m[0] + if m[0] < |w| then SeqLen(w, m[0]) else 1
  }

  /* -------------------------------------------------------- all matches */

  /** The matches found one after another, from `at` on. */
  ghost function Matches(n: Node, groups: nat, w: Text, at: nat): (ms: seq<Caps>)
    requires GroupsWithin(n, groups)
    ensures forall m | m in ms :: |m| == 2 * (groups + 1) && Span0(w, m) && Paired(m, {}, |w|)
    ensures ms != [] ==> at <= ms[0][0]
    decreases |w| + 1 - at
  {
    if at > |w| then []
    else
      match Backtracked(n, groups, w, at)
      case None => []
      case Some(m) =>
        FoundIs(n, groups, w, at);
        CapturesPaired(n, groups, w, at);
        [m] + Matches(n, groups, w, Onward(w, m))
  }

  lemma FoundIs(n: Node, groups: nat, w: Text, at: nat)
    requires GroupsWithin(n, groups)
    ensures match Backtracked(n, groups, w, at)
      case None => forall i: nat, j: nat :: at <= i <= |w| ==> !InLanguage(n, w, i, j)
      case Some(m) => |m| == 2 * (groups + 1) && Leftmost(n, w, at, m)
  {
    hide Leftmost, InLanguage;
    CompiledIsLinked(n, groups);
    SearchIsLeftmost(n, groups, w, at);
  }

  /** In terms of the language alone: each match is leftmost from where the
   *  one before it left off, and after the last there is none. */
  ghost predicate Scans(n: Node, w: Text, at: nat, ms: seq<Caps>)
    decreases |ms|
  {
    if ms == [] then forall i: nat, j: nat :: at <= i <= |w| ==> !InLanguage(n, w, i, j)
    else Leftmost(n, w, at, ms[0]) && Scans(n, w, Onward(w, ms[0]), ms[1..])
  }

  lemma {:induction false} MatchesScan(n: Node, groups: nat, w: Text, at: nat)
    requires GroupsWithin(n, groups)
    ensures Scans(n, w, at, Matches(n, groups, w, at))
    decreases |w| + 1 - at
  {
    hide InLanguage, Backtracked, L.MatchesTo;
    FoundIs(n, groups, w, at);
    if at <= |w| && Backtracked(n, groups, w, at).Some? {
      var m := Backtracked(n, groups, w, at).value;
      MatchesScan(n, groups, w, Onward(w, m));
      assert ([m] + Matches(n, groups, w, Onward(w, m)))[1..] == Matches(n, groups, w, Onward(w, m));
    } else if at > |w| {
      NoneBeyond(n, w, at);
    }
  }

  lemma NoneBeyond(n: Node, w: Text, at: nat)
    requires at > |w|
    ensures forall i: nat, j: nat :: at <= i <= |w| ==> !InLanguage(n, w, i, j)
  {}

  /** Every match is in the language; they do not overlap; and in what lies
   *  between two of them, or after the last, no match starts. */
  lemma {:induction false} MatchesApart(n: Node, w: Text, at: nat, ms: seq<Caps>, i: nat)
    requires Scans(n, w, at, ms) && i < |ms|
    ensures Span0(w, ms[i]) && at <= ms[i][0] && InLanguage(n, w, ms[i][0], ms[i][1])
    ensures i > 0 ==> Span0(w, ms[i - 1]) && ms[i - 1][1] <= Onward(w, ms[i - 1]) <= ms[i][0]
    ensures forall x: nat, y: nat ::
              (if i == 0 then at else Onward(w, ms[i - 1])) <= x < ms[i][0] ==> !InLanguage(n, w, x, y)
    decreases |ms|
  {
    hide InLanguage, L.MatchesTo;
    if i > 0 { MatchesApart(n, w, Onward(w, ms[0]), ms[1..], i - 1); }
  }

  /** What the last match leaves: nothing in the language starts after it. */
  lemma {:induction false} NothingAfter(n: Node, w: Text, at: nat, ms: seq<Caps>)
    requires Scans(n, w, at, ms)
    ensures ms != [] ==> Span0(w, ms[|ms| - 1])
    ensures forall x: nat, y: nat ::
              (if ms == [] then at else Onward(w, ms[|ms| - 1])) <= x <= |w| ==> !InLanguage(n, w, x, y)
    decreases |ms|
  {
    hide InLanguage, L.MatchesTo;
    if ms != [] { NothingAfter(n, w, Onward(w, ms[0]), ms[1..]); }
  }

  /* -------------------------------------------------------- captures */

  /** Up to position `at`, the groups not open now took no part or have their
   *  end no earlier than their start. */
  ghost predicate Paired(c: Caps, open: set<nat>, at: nat) {
    && (forall x | 0 <= x < |c| :: -1 <= c[x] <= at)
    && forall g: nat | g !in open && 2 * g + 1 < |c| :: PairedAt(c, g)
  }

  predicate PairedAt(c: Caps, g: nat)
    requires 2 * g + 1 < |c|
  {
    (c[2 * g] == -1 && c[2 * g + 1] == -1) || 0 <= c[2 * g] <= c[2 * g + 1]
  }

  /** What was set stays set. */
  ghost predicate Keeps(c: Caps, d: Caps) {
    |c| == |d| && forall x | 0 <= x < |c| && c[x] >= 0 :: d[x] >= 0
  }

  ghost predicate PairsOn(s: Span, open: set<nat>) {
    s.i <= s.j && Paired(s.d, open, s.j) && Keeps(s.c, s.d)
  }

  lemma {:induction false} DenotePaired(n: Node, groups: nat, w: Text, s: Span, open: set<nat>)
    requires GroupsWithin(n, groups) && s in Denote(n, w) && Paired(s.c, open, s.i)
    ensures PairsOn(s, open)
    decreases n, 0
  {
    match n
    case Cat(l, r) =>
      var m: nat, e: Caps :| Joins(Denote(l, w), Denote(r, w), s, m, e);
      DenotePaired(l, groups, w, Span(s.i, s.c, m, e), open);
      DenotePaired(r, groups, w, Span(m, e, s.j, s.d), open);
    case Alt(l, r) =>
      if s in Denote(l, w) {
        DenotePaired(l, groups, w, s, open);
      } else {
        DenotePaired(r, groups, w, s, open);
      }
    case Rep(b, lo, hi, _) =>
      var k: nat :| lo <= k && (hi < 0 || k <= lo || k <= hi) && s in Power(Denote(b, w), k);
      PowerPaired(b, groups, w, k, s, open);
    case Group(b, g) =>
      if g < 0 {
        DenotePaired(b, groups, w, s, open);
      } else {
        GroupPaired(b, g, groups, w, s, open);
      }
    case _ =>
      LeafSane(n, w, s);
      LeafKeeps(n, w, s);
      PairedLater(s.c, open, s.i, s.j);
  }

  lemma LeafKeeps(n: Node, w: Text, s: Span)
    requires (n.Empty? || n.Char? || n.Any? || n.Class?) && s in Denote(n, w)
    ensures s.c == s.d
  {
    hide OneChar;
  }

  lemma PairedLater(c: Caps, open: set<nat>, i: nat, j: nat)
    requires Paired(c, open, i) && i <= j
    ensures Paired(c, open, j)
  {}

  lemma {:induction false} PowerPaired(b: Node, groups: nat, w: Text, k: nat, s: Span, open: set<nat>)
    requires GroupsWithin(b, groups) && s in Power(Denote(b, w), k) && Paired(s.c, open, s.i)
    ensures PairsOn(s, open)
    decreases b, k + 1
  {
    if k > 0 {
      var m: nat, e: Caps :| Joins(Denote(b, w), Power(Denote(b, w), k - 1), s, m, e);
      DenotePaired(b, groups, w, Span(s.i, s.c, m, e), open);
      PowerPaired(b, groups, w, k - 1, Span(m, e, s.j, s.d), open);
    }
  }

  lemma {:induction false} GroupPaired(b: Node, g: nat, groups: nat, w: Text, s: Span, open: set<nat>)
    requires GroupsWithin(Group(b, g), groups) && s in Denote(Group(b, g), w) && Paired(s.c, open, s.i)
    ensures PairsOn(s, open)
    decreases b, 1
  {
    var m: nat, e: Caps :| Joins(Mark(2 * g), Then(Denote(b, w), Mark(2 * g + 1)), s, m, e);
    var m2: nat, e2: Caps :| Joins(Denote(b, w), Mark(2 * g + 1), Span(m, e, s.j, s.d), m2, e2);
    OpenGroup(s.c, open, s.i, g);
    DenotePaired(b, groups, w, Span(m, e, m2, e2), open + {g});
    CloseGroup(s.c, e, e2, open, m2, g);
  }

  lemma OpenGroup(c: Caps, open: set<nat>, i: nat, g: nat)
    requires Paired(c, open, i)
    ensures Paired(Put(c, 2 * g, i), open + {g}, i) && Keeps(c, Put(c, 2 * g, i))
    ensures 2 * g + 1 < |c| ==> Put(c, 2 * g, i)[2 * g] >= 0
  {
    var d := Put(c, 2 * g, i);
    forall h: nat | h !in open + {g} && 2 * h + 1 < |d| ensures PairedAt(d, h) {
      assert PairedAt(c, h);
    }
  }

  lemma CloseGroup(c: Caps, e: Caps, d: Caps, open: set<nat>, j: nat, g: nat)
    requires Paired(d, open + {g}, j) && Keeps(c, e) && Keeps(e, d) && (2 * g + 1 < |e| ==> e[2 * g] >= 0)
    ensures Paired(Put(d, 2 * g + 1, j), open, j) && Keeps(c, Put(d, 2 * g + 1, j))
  {
    var f := Put(d, 2 * g + 1, j);
    forall h: nat | h !in open && 2 * h + 1 < |f| ensures PairedAt(f, h) {
      if h != g { assert PairedAt(d, h); }
    }
  }

  /** So a match's captures lie in the subject, and none ends before it starts. */
  lemma CapturesPaired(n: Node, groups: nat, w: Text, at: nat)
    requires GroupsWithin(n, groups)
    ensures Backtracked(n, groups, w, at).Some? ==> Paired(Backtracked(n, groups, w, at).value, {}, |w|)
  {
    hide Denote, Backtracked, InLanguage;
    FoundIs(n, groups, w, at);
    if Backtracked(n, groups, w, at).Some? {
      var m := Backtracked(n, groups, w, at).value;
      var c := RegexBacktrack.Blanks(|m|);
      var d: Caps :| RegexTree.Span(m[0], Put(c, 0, m[0]), m[1], d) in Denote(n, w) && m == Put(d, 1, m[1]);
      assert Paired(c, {}, m[0]);
      OpenGroup(c, {}, m[0], 0);
      DenotePaired(n, groups, w, RegexTree.Span(m[0], Put(c, 0, m[0]), m[1], d), {0});
      CloseGroup(c, Put(c, 0, m[0]), d, {}, m[1], 0);
      assert {} + {0} == {0};
      PairedLater(m, {}, m[1], |w|);
    }
  }

  /** A group's text, empty when it took no part. */
  function GroupText(w: Text, m: Caps, g: nat): Text
    requires 2 * g + 1 < |m| && Paired(m, {}, |w|)
  {
    if m[2 * g] < 0 then [] else
      assert PairedAt(m, g);
      w[m[2 * g]..m[2 * g + 1]]
  }

  function Texts(w: Text, groups: nat, m: Caps): (s: seq<Text>)
    requires |m| == 2 * (groups + 1) && Paired(m, {}, |w|)
    ensures |s| == groups + 1
  {
    seq(groups + 1, g requires 0 <= g < groups + 1 => GroupText(w, m, g))
  }

  /** caps_slice */
  method CapsSlice(w: Text, groups: nat, m: Caps) returns (out: seq<Text>)
    requires |m| == 2 * (groups + 1) && Paired(m, {}, |w|)
    ensures out == Texts(w, groups, m)
  {
    out := [];
    for g := 0 to groups + 1
      invariant |out| == g && forall k | 0 <= k < g :: out[k] == GroupText(w, m, k)
    {
      assert PairedAt(m, g);
      var a, b := m[2 * g], m[2 * g + 1];
      if a < 0 || b < 0 || b < a {
        out := out + [[]];
      } else {
        out := out + [w[a..b]];
      }
    }
  }

  /* -------------------------------------------------------- the methods */

  /** rx_search from a position. */
  method SearchFrom(n: Node, groups: nat, p: Program, w: Text, at: nat) returns (r: Option<Caps>)
    requires GroupsWithin(n, groups) && p == Compiled(n)
    ensures r == Backtracked(n, groups, w, at)
    ensures r.Some? ==> |r.value| == 2 * (groups + 1) && Span0(w, r.value) && at <= r.value[0]
    ensures r.Some? ==> Paired(r.value, {}, |w|)
  {
    hide Compiled, L.WellFormed, L.MatchesTo, InLanguage, RegexBacktrack.Search, RegexBacktrack.Linked, Paired;
    CompiledIsLinked(n, groups);
    FoundIs(n, groups, w, at);
    CapturesPaired(n, groups, w, at);
    var matched, out;
    ghost var calls;
    matched, out, calls := RegexSearch.RxSearch(p, 2 * (groups + 1), w, at);
    r := if matched then Some(out) else None;
  }

  lemma MatchesBy(n: Node, groups: nat, w: Text, at: nat, r: Option<Caps>)
    requires GroupsWithin(n, groups) && r == Backtracked(n, groups, w, at)
    requires r.Some? ==> Span0(w, r.value)
    ensures at > |w| || r.None? ==> Matches(n, groups, w, at) == []
    ensures at <= |w| && r.Some? ==>
              Matches(n, groups, w, at) == [r.value] + Matches(n, groups, w, Onward(w, r.value))
  {
    hide Backtracked, Paired, GroupsWithin;
  }

  /** `done` has been found, and from `at` on the rest will be. */
  ghost predicate Found(n: Node, groups: nat, w: Text, done: seq<Caps>, at: nat)
    requires GroupsWithin(n, groups)
  {
    Matches(n, groups, w, 0) == done + Matches(n, groups, w, at)
  }

  lemma FoundNone(n: Node, groups: nat, w: Text)
    requires GroupsWithin(n, groups)
    ensures Found(n, groups, w, [], 0)
  {
    hide Matches;
    assert [] + Matches(n, groups, w, 0) == Matches(n, groups, w, 0);
  }

  lemma FoundMore(n: Node, groups: nat, w: Text, done: seq<Caps>, at: nat, m: Caps)
    requires GroupsWithin(n, groups) && at <= |w| && Span0(w, m) && Found(n, groups, w, done, at)
    requires Backtracked(n, groups, w, at) == Some(m)
    ensures Found(n, groups, w, done + [m], Onward(w, m)) && m in Matches(n, groups, w, 0)
  {
    hide Matches, Backtracked, GroupsWithin;
    MatchesBy(n, groups, w, at, Some(m));
    var rest := Matches(n, groups, w, Onward(w, m));
    assert done + ([m] + rest) == (done + [m]) + rest;
    assert (done + ([m] + rest))[|done|] == m;
  }

  lemma FoundAll(n: Node, groups: nat, w: Text, done: seq<Caps>, at: nat)
    requires GroupsWithin(n, groups) && Found(n, groups, w, done, at)
    requires at > |w| || Backtracked(n, groups, w, at).None?
    ensures Matches(n, groups, w, 0) == done
  {
    hide Matches, Backtracked, GroupsWithin;
    if at <= |w| { MatchesBy(n, groups, w, at, None); } else { Beyond(n, groups, w, at); }
    assert done + [] == done;
  }

  lemma Beyond(n: Node, groups: nat, w: Text, at: nat)
    requires GroupsWithin(n, groups) && at > |w|
    ensures Matches(n, groups, w, at) == []
  {
    hide Backtracked;
  }

  lemma TextsAre(w: Text, groups: nat, ms: seq<Caps>, out: seq<seq<Text>>)
    requires |out| == |ms|
    requires forall i | 0 <= i < |ms| ::
        |ms[i]| == 2 * (groups + 1) && Paired(ms[i], {}, |w|) && out[i] == Texts(w, groups, ms[i])
    ensures forall i | 0 <= i < |ms| :: |out[i]| == groups + 1
    ensures forall i, g | 0 <= i < |ms| && 0 <= g <= groups ::
      out[i][g] == var a, b := ms[i][2 * g], ms[i][2 * g + 1]; if 0 <= a <= b <= |w| then w[a..b] else []
  {
    forall i, g | 0 <= i < |ms| && 0 <= g <= groups
      ensures out[i][g] == var a, b := ms[i][2 * g], ms[i][2 * g + 1]; if 0 <= a <= b <= |w| then w[a..b] else []
    {
      assert PairedAt(ms[i], g);
    }
  }

  /** vl_regex_find_all: every match's captures, in order. */
  method FindAll(n: Node, groups: nat, p: Program, w: Text) returns (out: seq<seq<Text>>)
    requires GroupsWithin(n, groups) && p == Compiled(n)
    ensures var ms := Matches(n, groups, w, 0);
      && |out| == |ms|
      && (forall i | 0 <= i < |ms| :: |ms[i]| == 2 * (groups + 1) && |out[i]| == groups + 1)
      && forall i, g | 0 <= i < |ms| && 0 <= g <= groups ::
        out[i][g] == var a, b := ms[i][2 * g], ms[i][2 * g + 1]; if 0 <= a <= b <= |w| then w[a..b] else []
  {
    hide Compiled, Backtracked, Paired, Texts, Matches, Found, GroupsWithin;
    out := [];
    var at := 0;
    ghost var ms: seq<Caps> := [];
    FoundNone(n, groups, w);
    while at <= |w|
      invariant Found(n, groups, w, ms, at) && |out| == |ms|
      invariant forall i | 0 <= i < |ms| ::
          |ms[i]| == 2 * (groups + 1) && Paired(ms[i], {}, |w|) && out[i] == Texts(w, groups, ms[i])
      decreases |w| + 1 - at
    {
      var m := SearchFrom(n, groups, p, w, at);
      if m.None? { break; }
      FoundMore(n, groups, w, ms, at, m.value);
      var texts := CapsSlice(w, groups, m.value);
      out := out + [texts];
      ms := ms + [m.value];
      at := Onward(w, m.value);
    }
    FoundAll(n, groups, w, ms, at);
    TextsAre(w, groups, ms, out);
  }

  /* -------------------------------------------------------- replacing */

  /** w from `at` on, with each of the matches replaced by what is put for it. */
  ghost function Replaced(w: Text, ms: seq<Caps>, put: Caps -> Text, at: nat): Text
    decreases |ms|
  {
    if ms == [] || !(Span0(w, ms[0]) && at <= ms[0][0]) then (if at <= |w| then w[at..] else [])
    else w[at..ms[0][0]] + (put(ms[0]) + Replaced(w, ms[1..], put, ms[0][1]))
  }

  /** Putting for each match what it matched changes nothing. */
  lemma {:induction false} ReplacedBySelf(n: Node, w: Text, from: nat, ms: seq<Caps>, put: Caps -> Text, at: nat)
    requires Scans(n, w, from, ms) && at <= |w| && at <= from
    requires forall m | m in ms && Span0(w, m) :: put(m) == w[m[0]..m[1]]
    ensures Replaced(w, ms, put, at) == w[at..]
    decreases |ms|
  {
    hide InLanguage, L.MatchesTo;
    if ms != [] {
      var m := ms[0];
      ReplacedBySelf(n, w, Onward(w, m), ms[1..], put, m[1]);
      assert w[at..] == w[at..m[0]] + (w[m[0]..m[1]] + w[m[1]..]);
    }
  }

  /* -------------------------------------------------------- replacements */

  /** The group that a name or a number in braces stands for, or -1. */
  ghost function Named(names: seq<Option<Text>>, name: Text): (g: int)
    ensures -1 <= g
  {
    if name != [] && AllDigits(name) then
      if Number(name) < |names| then Number(name) else -1
    else LastNamed(names, name)
  }

  predicate AllDigits(s: Text) { forall i | 0 <= i < |s| :: Bytes.IsDigit(s[i]) }

  function Number(s: Text): (x: nat)
    requires AllDigits(s)
  {
    if s == [] then 0 else Number(s[..|s| - 1]) * 10 + (s[|s| - 1] - Bytes.DIGIT0)
  }

  /** The last group of that name, from 1 on. */
  function LastNamed(names: seq<Option<Text>>, name: Text): (g: int)
    ensures -1 <= g < |names|
    ensures g >= 0 ==> g > 0 && names[g] == Some(name)
    ensures forall k | 1 <= k < |names| && names[k] == Some(name) :: k <= g
  {
    if |names| <= 1 then -1
    else if names[|names| - 1] == Some(name) then |names| - 1
    else LastNamed(names[..|names| - 1], name)
  }

  /** Where the brace opened before i closes. */
  function CloseAt(rep: Text, i: nat): (c: nat)
    requires i <= |rep|
    ensures i <= c <= |rep| && (c < |rep| ==> rep[c] == CLOSE) && forall k | i <= k < c :: rep[k] != CLOSE
    decreases |rep| - i
  {
    if i < |rep| && rep[i] != CLOSE then CloseAt(rep, i + 1) else i
  }

  /** expand_repl from i on: $$ is a dollar, $0 to $9 and ${...} are groups,
   *  and any other byte is itself. */
  ghost function Expand(w: Text, m: Caps, names: seq<Option<Text>>, rep: Text, i: nat): Text
    requires |m| == 2 * |names| && Paired(m, {}, |w|) && i <= |rep|
    decreases |rep| - i
  {
    if i == |rep| then []
    else if rep[i] != DOLLAR || i + 1 == |rep| then [rep[i]] + Expand(w, m, names, rep, i + 1)
    else
      var c := rep[i + 1];
      var close := CloseAt(rep, i + 2);
      if c == DOLLAR then [DOLLAR] + Expand(w, m, names, rep, i + 2)
      else if c == OPEN && close < |rep| && Named(names, rep[i + 2..close]) >= 0 then
        GroupText(w, m, Named(names, rep[i + 2..close])) + Expand(w, m, names, rep, close + 1)
      else if Bytes.IsDigit(c) && c - Bytes.DIGIT0 < |names| then
        GroupText(w, m, c - Bytes.DIGIT0) + Expand(w, m, names, rep, i + 2)
      else [rep[i]] + Expand(w, m, names, rep, i + 1)
  }

  /** "$0" puts what was matched. */
  lemma DollarZero(w: Text, m: Caps, names: seq<Option<Text>>)
    requires |m| == 2 * |names| && Span0(w, m) && Paired(m, {}, |w|)
    ensures Expand(w, m, names, [DOLLAR, Bytes.DIGIT0], 0) == w[m[0]..m[1]]
  {
    assert GroupText(w, m, 0) == w[m[0]..m[1]];
  }

  lemma {:induction false} NumberGrows(s: Text, i: nat)
    requires AllDigits(s) && i <= |s|
    ensures Number(s[..i]) <= Number(s)
    decreases |s|
  {
    if i == |s| {
      assert s[..i] == s;
    } else {
      assert s[..|s| - 1][..i] == s[..i];
      NumberGrows(s[..|s| - 1], i);
    }
  }

  /** The loop over the digits in braces, which stops once past the groups. */
  method GroupNumber(name: Text, groups: nat) returns (g: nat)
    requires AllDigits(name)
    ensures g <= groups <==> Number(name) <= groups
    ensures g <= groups ==> g == Number(name)
  {
    g := 0;
    var k := 0;
    while k < |name| && g <= groups
      invariant k <= |name| && g == Number(name[..k])
    {
      assert name[..k + 1][..k] == name[..k];
      g := g * 10 + (name[k] - Bytes.DIGIT0);
      k := k + 1;
    }
    NumberGrows(name, k);
    assert name[..|name|] == name;
  }

  /** The loop over the names: the last that matches counts. */
  method GroupNamed(names: seq<Option<Text>>, name: Text) returns (g: int)
    requires |names| > 0
    ensures g == LastNamed(names, name)
  {
    g := -1;
    for k := 1 to |names|
      invariant g == LastNamed(names[..k], name)
    {
      assert names[..k + 1][..k] == names[..k];
      if names[k] == Some(name) { g := k; }
    }
    assert names[..|names|] == names;
  }

  method BraceGroup(names: seq<Option<Text>>, name: Text) returns (g: int)
    requires |names| > 0
    ensures g == Named(names, name)
  {
    var digits := |name| > 0;
    for k := 0 to |name|
      invariant digits <==> |name| > 0 && forall j | 0 <= j < k :: Bytes.IsDigit(name[j])
    {
      if !Bytes.IsDigit(name[k]) { digits := false; }
    }
    if digits {
      g := GroupNumber(name, |names| - 1);
      if g > |names| - 1 { g := -1; }
    } else {
      g := GroupNamed(names, name);
    }
  }

  /** expand_repl */
  method ExpandRepl(w: Text, m: Caps, names: seq<Option<Text>>, rep: Text) returns (out: Text)
    requires |m| == 2 * |names| && |names| > 0 && Paired(m, {}, |w|)
    ensures out == Expand(w, m, names, rep, 0)
  {
    hide Paired, GroupText, Named;
    out := [];
    var i := 0;
    while i < |rep|
      invariant i <= |rep| && Expand(w, m, names, rep, 0) == out + Expand(w, m, names, rep, i)
      decreases |rep| - i
    {
      ghost var had, at := out, i;
      ghost var x: Text := [];
      var done := false;
      if rep[i] == DOLLAR && i + 1 < |rep| {
        var c := rep[i + 1];
        if c == DOLLAR {
          x := [DOLLAR];
          out := out + [DOLLAR];
          i := i + 2;
          done := true;
        } else if c == OPEN {
          var close := i + 2;
          while close < |rep| && rep[close] != CLOSE
            invariant i + 2 <= close <= |rep| && CloseAt(rep, close) == CloseAt(rep, i + 2)
          {
            close := close + 1;
          }
          if close < |rep| {
            var g := BraceGroup(names, rep[i + 2..close]);
            if g >= 0 {
              NamedWithin(names, rep[i + 2..close]);
              x := GroupText(w, m, g);
              out := out + GroupText(w, m, g);
              i := close + 1;
              done := true;
            }
          }
        } else if Bytes.IsDigit(c) {
          var g := c - Bytes.DIGIT0;
          if g < |names| {
            x := GroupText(w, m, g);
            out := out + GroupText(w, m, g);
            i := i + 2;
            done := true;
          }
        }
      }
      if !done {
        x := [rep[i]];
        out := out + [rep[i]];
        i := i + 1;
      }
      ExpandStep(w, m, names, rep, at, i, x);
      Rejoin(had, x, Expand(w, m, names, rep, i));
    }
  }

  lemma NamedWithin(names: seq<Option<Text>>, name: Text)
    ensures Named(names, name) < |names| || Named(names, name) == -1
  {}

  lemma Rejoin(a: Text, b: Text, c: Text)
    ensures (a + b) + c == a + (b + c)
  {}

  lemma ExpandStep(w: Text, m: Caps, names: seq<Option<Text>>, rep: Text, at: nat, i: nat, x: Text)
    requires |m| == 2 * |names| && Paired(m, {}, |w|) && at < i <= |rep|
    requires if rep[at] == DOLLAR && at + 1 < |rep| && rep[at + 1] == DOLLAR then x == [DOLLAR] && i == at + 2
             else if rep[at] == DOLLAR && at + 1 < |rep| && rep[at + 1] == OPEN && CloseAt(rep, at + 2) < |rep|
                     && Named(names, rep[at + 2..CloseAt(rep, at + 2)]) >= 0 then
               x == GroupText(w, m, Named(names, rep[at + 2..CloseAt(rep, at + 2)])) && i == CloseAt(rep, at + 2) + 1
             else if rep[at] == DOLLAR && at + 1 < |rep| && Bytes.IsDigit(rep[at + 1])
                     && rep[at + 1] - Bytes.DIGIT0 < |names| then
               x == GroupText(w, m, rep[at + 1] - Bytes.DIGIT0) && i == at + 2
             else x == [rep[at]] && i == at + 1
    ensures Expand(w, m, names, rep, at) == x + Expand(w, m, names, rep, i)
  {
    hide Paired, GroupText, Named;
  }

  /** What is put for a match. */
  ghost function Putting(w: Text, names: seq<Option<Text>>, rep: Text): Caps -> Text {
    (m: Caps) => if |m| == 2 * |names| && Paired(m, {}, |w|) then Expand(w, m, names, rep, 0) else []
  }

  /** Text before the first match is copied, all at once or in two parts. */
  lemma ReplacedFrom(w: Text, ms: seq<Caps>, put: Caps -> Text, p: nat, at: nat)
    requires p <= at <= |w| && (ms != [] ==> Span0(w, ms[0]) && at <= ms[0][0])
    ensures Replaced(w, ms, put, p) == w[p..at] + Replaced(w, ms, put, at)
  {
    if ms == [] {
      assert w[p..] == w[p..at] + w[at..];
    } else {
      var rest := Replaced(w, ms[1..], put, ms[0][1]);
      hide Replaced;
      ReplacedFirst(w, ms, put, p);
      ReplacedFirst(w, ms, put, at);
      assert w[p..ms[0][0]] == w[p..at] + w[at..ms[0][0]];
      Rejoin(w[p..at], w[at..ms[0][0]], put(ms[0]) + rest);
    }
  }

  lemma ReplacedFirst(w: Text, ms: seq<Caps>, put: Caps -> Text, at: nat)
    requires ms != [] && Span0(w, ms[0]) && at <= ms[0][0]
    ensures Replaced(w, ms, put, at) == w[at..ms[0][0]] + (put(ms[0]) + Replaced(w, ms[1..], put, ms[0][1]))
  {}

  /** The character that an empty match stands before. */
  function Passed(w: Text, m: Caps): Text
    requires Span0(w, m)
  {
    if m[1] == m[0] && m[0] < |w| then w[m[0]..m[0] + SeqLen(w, m[0])] else []
  }

  lemma ReplacedStep(n: Node, groups: nat, w: Text, at: nat, m: Caps, put: Caps -> Text)
    requires GroupsWithin(n, groups) && at <= |w| && Span0(w, m) && at <= m[0]
    requires Backtracked(n, groups, w, at) == Some(m)
    ensures var next := Onward(w, m);
      Replaced(w, Matches(n, groups, w, at), put, at)
      == w[at..m[0]] + (put(m) + (Passed(w, m) + Replaced(w, Matches(n, groups, w, next), put, next)))
  {
    hide Backtracked, Paired, GroupsWithin, Matches, Replaced;
    var next := Onward(w, m);
    MatchesBy(n, groups, w, at, Some(m));
    var rest := Matches(n, groups, w, next);
    assert ([m] + rest)[1..] == rest;
    ReplacedFirst(w, [m] + rest, put, at);
    if next <= |w| {
      ReplacedFrom(w, rest, put, m[1], next);
      PassedBetween(w, m);
    } else {
      Beyond(n, groups, w, next);
      AtTheEnd(w, m, put);
    }
  }

  lemma PassedBetween(w: Text, m: Caps)
    requires Span0(w, m) && Onward(w, m) <= |w|
    ensures w[m[1]..Onward(w, m)] == Passed(w, m)
  {}

  lemma AtTheEnd(w: Text, m: Caps, put: Caps -> Text)
    requires Span0(w, m) && Onward(w, m) > |w|
    ensures Replaced(w, [], put, m[1]) == Passed(w, m) + Replaced(w, [], put, Onward(w, m))
  {
    assert w[m[1]..] == [] + [];
  }

  /** vl_regex_replace: each match, and nothing else, is replaced. */
  method Replace(n: Node, groups: nat, p: Program, w: Text, names: seq<Option<Text>>, rep: Text) returns (out: Text)
    requires GroupsWithin(n, groups) && p == Compiled(n) && |names| == groups + 1
    ensures out == Replaced(w, Matches(n, groups, w, 0), Putting(w, names, rep), 0)
  {
    hide Compiled, Backtracked, Paired, Matches, GroupsWithin, Replaced, Expand, Passed;
    out := [];
    var at := 0;
    ghost var put := Putting(w, names, rep);
    ghost var whole := Replaced(w, Matches(n, groups, w, 0), put, 0);
    assert [] + whole == whole;
    while at <= |w|
      invariant whole == out + Replaced(w, Matches(n, groups, w, at), put, at)
      decreases |w| + 1 - at
    {
      var m := SearchFrom(n, groups, p, w, at);
      if m.None? { break; }
      var c := m.value;
      ghost var had, from := out, at;
      ReplacedStep(n, groups, w, at, c, put);
      if c[0] > at { out := out + w[at..c[0]]; } else { NoGap(w, at, out); }
      assert out == had + w[from..c[0]];
      var text := ExpandRepl(w, c, names, rep);
      out := out + text;
      var next := if c[1] > c[0] then c[1] else c[0] + if c[0] < |w| then SeqLen(w, c[0]) else 1;
      if c[1] == c[0] && c[0] < |w| {
        out := out + w[c[0]..c[0] + SeqLen(w, c[0])];
      }
      PassedIs(w, c, had + w[from..c[0]] + text);
      at := next;
      Rejoin3(had, w[from..c[0]], text, Passed(w, c), Replaced(w, Matches(n, groups, w, at), put, at));
    }
    Finish(n, groups, w, at, put);
    if at < |w| { out := out + w[at..]; } else { assert out + [] == out; }
  }

  lemma NoGap(w: Text, at: nat, out: Text)
    requires at <= |w|
    ensures out + w[at..at] == out
  {}

  lemma PassedIs(w: Text, c: Caps, x: Text)
    requires Span0(w, c)
    ensures x + Passed(w, c)
         == if c[1] == c[0] && c[0] < |w| then x + w[c[0]..c[0] + SeqLen(w, c[0])] else x
  {}

  lemma Rejoin3(a: Text, b: Text, c: Text, d: Text, e: Text)
    ensures a + (b + (c + (d + e))) == (((a + b) + c) + d) + e
  {
    Rejoin(((a + b) + c), d, e);
    Rejoin(a + b, c, d + e);
    Rejoin(a, b, c + (d + e));
  }

  lemma Finish(n: Node, groups: nat, w: Text, at: nat, put: Caps -> Text)
    requires GroupsWithin(n, groups) && (at > |w| || Backtracked(n, groups, w, at).None?)
    ensures Replaced(w, Matches(n, groups, w, at), put, at) == if at < |w| then w[at..] else []
  {
    hide Backtracked, GroupsWithin;
    if at == |w| { assert w[at..] == []; }
  }

  /** Replacing every match by "$0" gives the subject back. */
  lemma ReplaceByWhole(n: Node, groups: nat, w: Text, names: seq<Option<Text>>)
    requires GroupsWithin(n, groups) && |names| == groups + 1
    ensures Replaced(w, Matches(n, groups, w, 0), Putting(w, names, [DOLLAR, Bytes.DIGIT0]), 0) == w
  {
    var ms := Matches(n, groups, w, 0);
    var put := Putting(w, names, [DOLLAR, Bytes.DIGIT0]);
    MatchesScan(n, groups, w, 0);
    hide Matches, Scans, Expand, Replaced, Paired;
    forall m | m in ms && Span0(w, m) ensures put(m) == w[m[0]..m[1]] {
      DollarZero(w, m, names);
    }
    ReplacedBySelf(n, w, 0, ms, put, 0);
    assert w[0..] == w;
  }

  /* -------------------------------------------------------- splitting */

  /** The text between the matches. */
  ghost function Gaps(w: Text, ms: seq<Caps>, at: nat): (gs: seq<Text>)
    ensures |gs| == |ms| + 1
    decreases |ms|
  {
    if ms == [] then [if at <= |w| then w[at..] else []]
    else if Span0(w, ms[0]) && at <= ms[0][0] then [w[at..ms[0][0]]] + Gaps(w, ms[1..], ms[0][1])
    else [[]] + Gaps(w, ms[1..], at)
  }

  /** The matches that are not empty. */
  ghost function NonEmpty(w: Text, ms: seq<Caps>): seq<Caps> {
    if ms == [] then []
    else (if Span0(w, ms[0]) && ms[0][1] > ms[0][0] then [ms[0]] else []) + NonEmpty(w, ms[1..])
  }

  lemma SplitStep(n: Node, groups: nat, w: Text, at: nat, m: Caps, piece: nat)
    requires GroupsWithin(n, groups) && at <= |w| && Span0(w, m) && at <= m[0] && piece <= at
    requires Backtracked(n, groups, w, at) == Some(m)
    ensures var gs := Gaps(w, NonEmpty(w, Matches(n, groups, w, at)), piece);
      var next := NonEmpty(w, Matches(n, groups, w, Onward(w, m)));
      if m[1] > m[0] then gs == [w[piece..m[0]]] + Gaps(w, next, m[1]) else gs == Gaps(w, next, piece)
  {
    hide Backtracked, Paired, GroupsWithin, Matches;
    MatchesBy(n, groups, w, at, Some(m));
    var rest := Matches(n, groups, w, Onward(w, m));
    assert ([m] + rest)[1..] == rest;
    var more := NonEmpty(w, rest);
    if m[1] > m[0] {
      assert ([m] + more)[1..] == more;
    } else {
      assert [] + more == more;
    }
  }

  /** `out` has the pieces so far, and the next one starts at `piece`. */
  ghost predicate Splitting(n: Node, groups: nat, w: Text, out: seq<Text>, at: nat, piece: nat)
    requires GroupsWithin(n, groups)
  {
    Gaps(w, NonEmpty(w, Matches(n, groups, w, 0)), 0) == out + Gaps(w, NonEmpty(w, Matches(n, groups, w, at)), piece)
  }

  lemma SplitNone(n: Node, groups: nat, w: Text)
    requires GroupsWithin(n, groups)
    ensures Splitting(n, groups, w, [], 0, 0)
  {
    hide Gaps;
    var all := Gaps(w, NonEmpty(w, Matches(n, groups, w, 0)), 0);
    assert [] + all == all;
  }

  lemma SplitMore(n: Node, groups: nat, w: Text, out: seq<Text>, at: nat, m: Caps, piece: nat)
    requires GroupsWithin(n, groups) && at <= |w| && Span0(w, m) && at <= m[0] && piece <= at
    requires Backtracked(n, groups, w, at) == Some(m) && Splitting(n, groups, w, out, at, piece)
    ensures if m[1] > m[0] then Splitting(n, groups, w, out + [w[piece..m[0]]], Onward(w, m), m[1])
            else Splitting(n, groups, w, out, Onward(w, m), piece)
  {
    hide Backtracked, GroupsWithin, Matches, Gaps, NonEmpty;
    SplitStep(n, groups, w, at, m, piece);
    var gs := Gaps(w, NonEmpty(w, Matches(n, groups, w, Onward(w, m))), m[1]);
    assert out + ([w[piece..m[0]]] + gs) == (out + [w[piece..m[0]]]) + gs;
  }

  /** vl_regex_split: the pieces between the matches that are not empty. */
  method Split(n: Node, groups: nat, p: Program, w: Text) returns (out: seq<Text>)
    requires GroupsWithin(n, groups) && p == Compiled(n)
    ensures out == Gaps(w, NonEmpty(w, Matches(n, groups, w, 0)), 0)
  {
    hide Compiled, Backtracked, Paired, Matches, GroupsWithin, Gaps, NonEmpty, Splitting;
    out := [];
    var at: nat, piece: nat := 0, 0;
    SplitNone(n, groups, w);
    while at <= |w|
      invariant piece <= |w| && piece <= at && Splitting(n, groups, w, out, at, piece)
      decreases |w| + 1 - at
    {
      var r := SearchFrom(n, groups, p, w, at);
      if r.None? { break; }
      var m := r.value;
      SplitMore(n, groups, w, out, at, m, piece);
      at := Onward(w, m);
      if m[1] == m[0] {
        if m[0] >= |w| { break; }
        continue;
      }
      out := out + [w[piece..m[0]]];
      piece := m[1];
    }
    SplitDone(n, groups, w, out, at, piece);
    out := out + [w[piece..]];
  }

  lemma SplitDone(n: Node, groups: nat, w: Text, out: seq<Text>, at: nat, piece: nat)
    requires GroupsWithin(n, groups) && piece <= |w| && (at > |w| || Backtracked(n, groups, w, at).None?)
    requires Splitting(n, groups, w, out, at, piece)
    ensures Gaps(w, NonEmpty(w, Matches(n, groups, w, 0)), 0) == out + [w[piece..]]
  {
    hide Backtracked, GroupsWithin, Matches, Gaps, NonEmpty;
    SplitEnds(n, groups, w, at, piece);
  }

  lemma SplitEnds(n: Node, groups: nat, w: Text, at: nat, piece: nat)
    requires GroupsWithin(n, groups) && piece <= |w| && (at > |w| || Backtracked(n, groups, w, at).None?)
    ensures Gaps(w, NonEmpty(w, Matches(n, groups, w, at)), piece) == [w[piece..]]
  {
    hide Backtracked, GroupsWithin;
  }

  /** The pieces and the matches between them, put together again. */
  ghost function Woven(w: Text, gs: seq<Text>, ms: seq<Caps>): Text
    requires |gs| == |ms| + 1
  {
    if ms == [] then gs[0]
    else gs[0] + ((if Span0(w, ms[0]) then w[ms[0][0]..ms[0][1]] else []) + Woven(w, gs[1..], ms[1..]))
  }

  /** Matches that follow one another. */
  ghost predicate Forward(w: Text, ms: seq<Caps>, at: nat)
    decreases |ms|
  {
    at <= |w| && (ms != [] ==> Span0(w, ms[0]) && at <= ms[0][0] && Forward(w, ms[1..], ms[0][1]))
  }

  lemma {:induction false} GapsWeave(w: Text, ms: seq<Caps>, at: nat)
    requires Forward(w, ms, at)
    ensures Woven(w, Gaps(w, ms, at), ms) == w[at..]
    decreases |ms|
  {
    if ms != [] {
      var m := ms[0];
      GapsWeave(w, ms[1..], m[1]);
      assert Gaps(w, ms, at)[1..] == Gaps(w, ms[1..], m[1]);
      assert w[at..] == w[at..m[0]] + (w[m[0]..m[1]] + w[m[1]..]);
    }
  }

  lemma {:induction false} ScansForward(n: Node, w: Text, from: nat, ms: seq<Caps>, at: nat)
    requires Scans(n, w, from, ms) && at <= |w| && at <= from
    ensures Forward(w, NonEmpty(w, ms), at)
    decreases |ms|
  {
    hide InLanguage, L.MatchesTo;
    if ms != [] {
      var m := ms[0];
      var rest := NonEmpty(w, ms[1..]);
      if m[1] > m[0] {
        ScansForward(n, w, Onward(w, m), ms[1..], m[1]);
        assert ([m] + rest)[1..] == rest;
      } else {
        ScansForward(n, w, Onward(w, m), ms[1..], at);
        assert [] + rest == rest;
      }
    }
  }

  /** Splitting loses nothing: the pieces and what was matched between them
   *  are the subject. */
  lemma SplitWeaves(n: Node, groups: nat, w: Text)
    requires GroupsWithin(n, groups)
    ensures var ms := NonEmpty(w, Matches(n, groups, w, 0));
      Woven(w, Gaps(w, ms, 0), ms) == w
  {
    hide Matches, Scans, NonEmpty, Gaps, Woven, Forward;
    MatchesScan(n, groups, w, 0);
    ScansForward(n, w, 0, Matches(n, groups, w, 0), 0);
    GapsWeave(w, NonEmpty(w, Matches(n, groups, w, 0)), 0);
    assert w[0..] == w;
  }
}
