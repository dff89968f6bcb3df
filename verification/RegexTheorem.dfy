/** What a search of a compiled tree means in terms of the tree: a match is
 *  found exactly when one exists, at the least start, with both ends recorded. */
module RegexTheorem {
  import opened Options
  import opened RegexTree
  import opened RegexProgram
  import opened RegexBacktrack
  import RegexSearch
  import RegexEmitter
  import L = RegexLayout
  import P = RegexPriority
  import opened RegexLoops
  import opened RegexPreference

  /* -------------------------------------------------------- the backtracker's paths */

  lemma NextIsStep(p: Program, w: Text, pc: nat, at: nat, caps: Caps, i: nat)
    requires Linked(p) && pc < |p.code| && i < |Next(p, w, pc, at)|
    ensures Step(p, w, Conf(pc, at, caps), Conf(Next(p, w, pc, at)[i], at, Saved(p, pc, at, caps)))
  {
  }

  lemma {:induction false} ClosureReaches(p: Program, w: Text, pc: nat, at: nat, caps: Caps, stack: set<nat>, i: nat)
    requires Linked(p) && pc < |p.code| && i < |Closure(p, w, pc, at, caps, stack)|
    ensures var t := Closure(p, w, pc, at, caps, stack)[i]; Reach(p, w, Conf(pc, at, caps), Conf(t.pc, at, t.caps))
    decreases Pcs(p) - stack, 0
  {
    hide Step, Reach;
    if IsEps(p.code[pc].op) {
      assert pc in Pcs(p) - stack;
      var saved := Saved(p, pc, at, caps);
      var k := ClosureAllReaches(p, w, Next(p, w, pc, at), at, saved, stack + {pc}, i);
      NextIsStep(p, w, pc, at, caps, k);
      var t := Closure(p, w, pc, at, caps, stack)[i];
      L.StepThen(p, w, Conf(pc, at, caps), Conf(Next(p, w, pc, at)[k], at, saved), Conf(t.pc, at, t.caps));
    } else {
      ReachSelf(p, w, Conf(pc, at, caps));
    }
  }

  lemma {:induction false} ClosureAllReaches(p: Program, w: Text, pcs: seq<nat>, at: nat, caps: Caps, stack: set<nat>,
                                             i: nat)
    returns (k: nat)
    requires Linked(p) && Within(p, pcs) && i < |ClosureAll(p, w, pcs, at, caps, stack)|
    ensures k < |pcs|
    ensures var t := ClosureAll(p, w, pcs, at, caps, stack)[i];
            Reach(p, w, Conf(pcs[k], at, caps), Conf(t.pc, at, t.caps))
    decreases Pcs(p) - stack, |pcs| + 1
  {
    hide Step, Reach, Linked, Closure;
    ClosureAllSplit(p, w, pcs, at, caps, stack);
    var a := Closure(p, w, pcs[0], at, caps, stack);
    if i < |a| {
      ClosureReaches(p, w, pcs[0], at, caps, stack, i);
      k := 0;
    } else {
      k := ClosureAllReaches(p, w, pcs[1..], at, caps, stack, i - |a|);
      k := k + 1;
    }
  }

  lemma ClosureAllSplit(p: Program, w: Text, pcs: seq<nat>, at: nat, caps: Caps, stack: set<nat>)
    requires Linked(p) && Within(p, pcs) && |ClosureAll(p, w, pcs, at, caps, stack)| > 0
    ensures |pcs| > 0 && Within(p, pcs[1..]) && pcs[0] < |p.code|
    ensures ClosureAll(p, w, pcs, at, caps, stack)
         == Closure(p, w, pcs[0], at, caps, stack) + ClosureAll(p, w, pcs[1..], at, caps, stack)
  {
    hide Closure, Linked;
  }

  /** What a thread returns is the capture vector of one of its accepting paths. */
  lemma {:induction false} RunThreadSound(p: Program, w: Text, t: Thread, at: nat) returns (z: Conf)
    requires Linked(p) && t.pc < |p.code| && at <= |w| && RunThread(p, w, t, at).Some?
    ensures L.AcceptsAt(p, w, Conf(t.pc, at, t.caps), z) && RunThread(p, w, t, at) == Some(z.caps)
    decreases |w| - at, 0
  {
    hide Reach;
    if p.code[t.pc].op.OpMatch? {
      z := Conf(t.pc, at, t.caps);
      ReachSelf(p, w, z);
    } else {
      RegexSearch.RunConsuming(p, w, t, at);
      var ts := Closure(p, w, t.pc + 1, at + 1, t.caps, {});
      var i;
      i, z := RunAllSound(p, w, ts, at + 1);
      var a, b := Conf(t.pc + 1, at + 1, t.caps), Conf(ts[i].pc, at + 1, ts[i].caps);
      ClosureReaches(p, w, t.pc + 1, at + 1, t.caps, {}, i);
      ReachTrans(p, w, a, b, z);
      L.StepThen(p, w, Conf(t.pc, at, t.caps), a, z);
    }
  }

  lemma {:induction false} RunAllSound(p: Program, w: Text, ts: seq<Thread>, at: nat) returns (i: nat, z: Conf)
    requires Linked(p) && Stopped(p, ts) && at <= |w| && RunAll(p, w, ts, at).Some?
    ensures i < |ts| && L.AcceptsAt(p, w, Conf(ts[i].pc, at, ts[i].caps), z) && RunAll(p, w, ts, at) == Some(z.caps)
    decreases |w| - at, |ts| + 1
  {
    hide L.AcceptsAt;
    if RunThread(p, w, ts[0], at).Some? {
      z := RunThreadSound(p, w, ts[0], at);
      i := 0;
    } else {
      i, z := RunAllSound(p, w, ts[1..], at);
      i := i + 1;
    }
  }

  /** When the backtracker gives up, no path accepts: not from any marked
   *  instruction of a settled list all of whose threads fail. */
  lemma {:induction false} NoPath(p: Program, w: Text, ts: seq<Thread>, marks: set<nat>, at: nat, s: seq<Conf>)
    requires Linked(p) && at <= |w| && Settled(p, w, ts, marks, at) && RunAll(p, w, ts, at).None?
    requires |s| > 0 && Path(p, w, s) && 0 <= s[0].pc < |p.code| && s[0].pc in marks && s[0].at == at
    ensures 0 <= s[|s| - 1].pc < |p.code| ==> !p.code[s[|s| - 1].pc].op.OpMatch?
    decreases |s|
  {
    hide *;
    var pc := s[0].pc;
    if |s| == 1 {
      NoMatchHere(p, w, ts, marks, at, pc);
    } else {
      L.PathStep(p, w, s, 0);
      PathRest(p, w, s);
      if IsEps(p.code[pc].op) {
        StaysMarked(p, w, ts, marks, at, s[0], s[1]);
        NoPath(p, w, ts, marks, at, s[1..]);
      } else {
        var i := FailedAt(p, w, ts, marks, at, pc);
        StepConsumes(p, w, s[0], s[1]);
        var ts', marks' := Onward(p, w, ts, i, at);
        NoPath(p, w, ts', marks', at + 1, s[1..]);
      }
    }
  }

  lemma NoMatchHere(p: Program, w: Text, ts: seq<Thread>, marks: set<nat>, at: nat, pc: nat)
    requires Linked(p) && at <= |w| && Settled(p, w, ts, marks, at) && RunAll(p, w, ts, at).None?
    requires pc < |p.code| && pc in marks
    ensures !p.code[pc].op.OpMatch?
  {
    if !IsEps(p.code[pc].op) { var i := FailedAt(p, w, ts, marks, at, pc); }
  }

  /** A step that consumes nothing leads from a marked instruction to one. */
  lemma StaysMarked(p: Program, w: Text, ts: seq<Thread>, marks: set<nat>, at: nat, a: Conf, b: Conf)
    requires Linked(p) && Settled(p, w, ts, marks, at) && Step(p, w, a, b)
    requires 0 <= a.pc < |p.code| && a.pc in marks && a.at == at && IsEps(p.code[a.pc].op)
    ensures 0 <= b.pc < |p.code| && b.pc in marks && b.at == at
  {
    assert LeadsInto(p, w, at, a.pc, marks + {});
    var k := StepIsNext(p, w, a, b);
  }

  lemma PathRest(p: Program, w: Text, s: seq<Conf>)
    requires Path(p, w, s) && |s| > 1
    ensures Path(p, w, s[1..])
  {}

  lemma FailedAt(p: Program, w: Text, ts: seq<Thread>, marks: set<nat>, at: nat, pc: nat) returns (i: nat)
    requires Linked(p) && at <= |w| && Settled(p, w, ts, marks, at) && RunAll(p, w, ts, at).None?
    requires pc < |p.code| && pc in marks && !IsEps(p.code[pc].op)
    ensures i < |ts| && ts[i].pc == pc && RunThread(p, w, ts[i], at).None? && !p.code[pc].op.OpMatch?
  {
    hide RunAll, Closure, Consumes;
    i :| i < |ts| && ts[i].pc == pc;
    RunNone(p, w, ts, i, at);
  }

  lemma StepConsumes(p: Program, w: Text, a: Conf, b: Conf)
    requires Step(p, w, a, b) && !IsEps(p.code[a.pc].op)
    ensures Consumes(p, p.code[a.pc], w, a.at) && b == Conf(a.pc + 1, a.at + 1, a.caps)
  {
    hide Consumes;
  }

  /** Past a failed thread's byte there is again a settled list that fails. */
  lemma Onward(p: Program, w: Text, ts: seq<Thread>, i: nat, at: nat) returns (ts': seq<Thread>, marks': set<nat>)
    requires Linked(p) && at <= |w| && i < |ts| && ts[i].pc < |p.code|
    requires RunThread(p, w, ts[i], at).None? && Consumes(p, p.code[ts[i].pc], w, at)
    ensures at < |w| && ts[i].pc + 1 < |p.code| && ts[i].pc + 1 in marks'
    ensures Settled(p, w, ts', marks', at + 1) && Stopped(p, ts') && RunAll(p, w, ts', at + 1).None?
  {
    hide RunAll, RunThread, Closure, Consumes, Settled, Visit;
    var pc := ts[i].pc;
    RegexSearch.RunConsuming(p, w, ts[i], at);
    RegexSearch.EmptySettled(p, w, at + 1);
    VisitRun(p, w, [], pc + 1, at + 1, ts[i].caps, {});
    RunNothing(p, w, at + 1);
    var r := Visit(p, w, pc + 1, at + 1, ts[i].caps, {});
    assert [] + r.threads == r.threads;
    ts', marks' := r.threads, r.seen;
  }

  lemma StepIsNext(p: Program, w: Text, a: Conf, b: Conf) returns (k: nat)
    requires Linked(p) && Step(p, w, a, b) && IsEps(p.code[a.pc].op)
    ensures k < |Next(p, w, a.pc, a.at)| && b.pc == Next(p, w, a.pc, a.at)[k] && b.at == a.at
  {
    k := if b.pc == Next(p, w, a.pc, a.at)[0] then 0 else 1;
  }

  lemma RunNothing(p: Program, w: Text, at: nat)
    requires Linked(p) && at <= |w|
    ensures RunAll(p, w, [], at) == None
  {
  }

  /** The program started at `at` accepts exactly when some path accepts, and
   *  then with the captures of one. */
  lemma RunFromAccepts(p: Program, w: Text, slots: nat, at: nat) returns (z: Conf)
    requires Linked(p) && |p.code| > 0 && at <= |w|
    ensures var a := Conf(0, at, Blanks(slots));
            && (RunFrom(p, w, slots, at).Some? ==> L.AcceptsAt(p, w, a, z) && RunFrom(p, w, slots, at) == Some(z.caps))
            && (RunFrom(p, w, slots, at).None? ==> forall y :: !L.AcceptsAt(p, w, a, y))
  {
    var a := Conf(0, at, Blanks(slots));
    var ts := Closure(p, w, 0, at, Blanks(slots), {});
    z := a;
    if RunFrom(p, w, slots, at).Some? {
      var i;
      i, z := RunAllSound(p, w, ts, at);
      ClosureReaches(p, w, 0, at, Blanks(slots), {}, i);
      ReachTrans(p, w, a, Conf(ts[i].pc, at, ts[i].caps), z);
    } else {
      RegexSearch.EmptySettled(p, w, at);
      VisitRun(p, w, [], 0, at, Blanks(slots), {});
      RunNothing(p, w, at);
      var r := Visit(p, w, 0, at, Blanks(slots), {});
      assert [] + r.threads == r.threads;
      forall y ensures !L.AcceptsAt(p, w, a, y) {
        if L.AcceptsAt(p, w, a, y) {
          var s: seq<Conf> :| Path(p, w, s) && s[0] == a && s[|s| - 1] == y;
          NoPath(p, w, r.threads, r.seen, at, s);
        }
      }
    }
  }

  /* -------------------------------------------------------- back to the tree */

  /** w[i..j] is in the tree's language. */
  ghost predicate InLanguage(n: Node, w: Text, i: nat, j: nat) {
    exists c: Caps, d: Caps :: Span(i, c, j, d) in Denote(n, w)
  }

  /** Captures record, they do not restrict: a match of w[i..j] exists from any
   *  capture vector, and it leaves the length and group 0's slots alone. */
  lemma {:induction false} CapsFree(n: Node, groups: nat, w: Text, s: Span, c: Caps) returns (d: Caps)
    requires GroupsWithin(n, groups) && s in Denote(n, w)
    ensures Span(s.i, c, s.j, d) in Denote(n, w)
    decreases n, 0
  {
    match n
    case Cat(l, r) =>
      var m: nat, e: Caps :| Joins(Denote(l, w), Denote(r, w), s, m, e);
      var f := CapsFree(l, groups, w, Span(s.i, s.c, m, e), c);
      d := CapsFree(r, groups, w, Span(m, e, s.j, s.d), f);
      assert Joins(Denote(l, w), Denote(r, w), Span(s.i, c, s.j, d), m, f);
    case Alt(l, r) =>
      if s in Denote(l, w) {
        d := CapsFree(l, groups, w, s, c);
      } else {
        d := CapsFree(r, groups, w, s, c);
      }
    case Rep(b, lo, hi, _) =>
      var k: nat :| lo <= k && (hi < 0 || k <= lo || k <= hi) && s in Power(Denote(b, w), k);
      d := PowerCapsFree(b, groups, w, k, s, c);
    case Group(b, g) =>
      if g < 0 {
        d := CapsFree(b, groups, w, s, c);
      } else {
        d := GroupCapsFree(b, g, groups, w, s, c);
      }
    case _ => d := c;
  }

  lemma {:induction false} PowerCapsFree(b: Node, groups: nat, w: Text, k: nat, s: Span, c: Caps) returns (d: Caps)
    requires GroupsWithin(b, groups) && s in Power(Denote(b, w), k)
    ensures Span(s.i, c, s.j, d) in Power(Denote(b, w), k)
    decreases b, k + 1
  {
    hide Power, Denote;
    var a := Denote(b, w);
    if k == 0 {
      d := c;
      L.PowerNone(a, s);
      PowerZero(a, s.i, c);
    } else {
      var m, e := L.PowerFirst(a, k, s);
      var f := CapsFree(b, groups, w, Span(s.i, s.c, m, e), c);
      d := PowerCapsFree(b, groups, w, k - 1, Span(m, e, s.j, s.d), f);
      PowerNext(a, k, Span(s.i, c, s.j, d), m, f);
    }
  }

  lemma PowerZero(a: Rel, i: nat, c: Caps)
    ensures Span(i, c, i, c) in Power(a, 0)
  {}

  lemma PowerNext(a: Rel, k: nat, s: Span, m: nat, e: Caps)
    requires k > 0 && Span(s.i, s.c, m, e) in a && Span(m, e, s.j, s.d) in Power(a, k - 1)
    ensures s in Power(a, k)
  {
    assert Joins(a, Power(a, k - 1), s, m, e);
  }

  lemma {:induction false} GroupCapsFree(b: Node, g: nat, groups: nat, w: Text, s: Span, c: Caps) returns (d: Caps)
    requires GroupsWithin(b, groups) && s in Denote(Group(b, g), w)
    ensures Span(s.i, c, s.j, d) in Denote(Group(b, g), w)
    decreases b, 1
  {
    var a, tail := Denote(b, w), Then(Denote(b, w), Mark(2 * g + 1));
    var m: nat, e: Caps :| Joins(Mark(2 * g), tail, s, m, e);
    var m2: nat, e2: Caps :| Joins(a, Mark(2 * g + 1), Span(m, e, s.j, s.d), m2, e2);
    var c1 := Put(c, 2 * g, s.i);
    var f := CapsFree(b, groups, w, Span(m, e, m2, e2), c1);
    d := Put(f, 2 * g + 1, s.j);
    assert Joins(a, Mark(2 * g + 1), Span(s.i, c1, s.j, d), s.j, f);
    assert Joins(Mark(2 * g), tail, Span(s.i, c, s.j, d), s.i, c1);
  }

  /** Where a match lies, and what it leaves of the capture vector. */
  ghost predicate Sane(w: Text, s: Span) {
    && s.i <= s.j && (s.i <= |w| ==> s.j <= |w|) && |s.d| == |s.c|
    && (|s.c| >= 2 ==> s.d[0] == s.c[0] && s.d[1] == s.c[1])
  }

  lemma {:induction false} DenoteSane(n: Node, groups: nat, w: Text, s: Span)
    requires GroupsWithin(n, groups) && s in Denote(n, w)
    ensures Sane(w, s)
    decreases n, 0
  {
    match n
    case Cat(l, r) =>
      var m: nat, e: Caps :| Joins(Denote(l, w), Denote(r, w), s, m, e);
      DenoteSane(l, groups, w, Span(s.i, s.c, m, e));
      DenoteSane(r, groups, w, Span(m, e, s.j, s.d));
    case Alt(l, r) =>
      if s in Denote(l, w) {
        DenoteSane(l, groups, w, s);
      } else {
        DenoteSane(r, groups, w, s);
      }
    case Rep(b, lo, hi, _) =>
      var k: nat :| lo <= k && (hi < 0 || k <= lo || k <= hi) && s in Power(Denote(b, w), k);
      PowerSane(b, groups, w, k, s);
    case Group(b, g) =>
      if g < 0 {
        DenoteSane(b, groups, w, s);
      } else {
        GroupSane(b, g, groups, w, s);
      }
    case _ => LeafSane(n, w, s);
  }

  lemma LeafSane(n: Node, w: Text, s: Span)
    requires (n.Empty? || n.Char? || n.Any? || n.Class?) && s in Denote(n, w)
    ensures Sane(w, s)
  {
    hide Continuation, Lead2, Lead3, Lead4, DotAscii, NegatedAscii;
  }

  lemma {:induction false} GroupSane(b: Node, g: nat, groups: nat, w: Text, s: Span)
    requires GroupsWithin(Group(b, g), groups) && s in Denote(Group(b, g), w)
    ensures Sane(w, s)
    decreases b, 1
  {
    var m: nat, e: Caps :| Joins(Mark(2 * g), Then(Denote(b, w), Mark(2 * g + 1)), s, m, e);
    var m2: nat, e2: Caps :| Joins(Denote(b, w), Mark(2 * g + 1), Span(m, e, s.j, s.d), m2, e2);
    DenoteSane(b, groups, w, Span(m, e, m2, e2));
  }

  lemma {:induction false} PowerSane(b: Node, groups: nat, w: Text, k: nat, s: Span)
    requires GroupsWithin(b, groups) && s in Power(Denote(b, w), k)
    ensures Sane(w, s)
    decreases b, k + 1
  {
    if k > 0 {
      var m: nat, e: Caps :| Joins(Denote(b, w), Power(Denote(b, w), k - 1), s, m, e);
      DenoteSane(b, groups, w, Span(s.i, s.c, m, e));
      PowerSane(b, groups, w, k - 1, Span(m, e, s.j, s.d));
    }
  }

  /* -------------------------------------------------------- the result */

  /** A leftmost match at or after `from`: caps records one whole match, and no
   *  earlier start has any. */
  ghost predicate Leftmost(n: Node, w: Text, from: nat, caps: Caps) {
    && |caps| >= 2 && from <= caps[0] <= caps[1] <= |w|
    && L.MatchesTo(n, w, caps[0], Blanks(|caps|), caps[1], caps)
    && InLanguage(n, w, caps[0], caps[1])
    && forall i: nat, j: nat :: from <= i < caps[0] ==> !InLanguage(n, w, i, j)
  }

  /** Trying one start: a match exactly when the language has one there. */
  lemma RunFromIsMatch(n: Node, groups: nat, w: Text, at: nat)
    requires GroupsWithin(n, groups) && at <= |w| && Linked(Compiled(n)) && |Compiled(n).code| > 0
    ensures var r := RunFrom(Compiled(n), w, 2 * (groups + 1), at);
            && (r.Some? ==> |r.value| == 2 * (groups + 1) && Leftmost(n, w, at, r.value) && r.value[0] == at)
            && (r.None? ==> forall j: nat :: !InLanguage(n, w, at, j))
  {
    hide RunFrom, Reach, Denote, Compiled;
    var p, slots := Compiled(n), 2 * (groups + 1);
    var c := Blanks(slots);
    var z := RunFromAccepts(p, w, slots, at);
    if RunFrom(p, w, slots, at).Some? {
      L.AcceptIsMatch(n, groups, w, at, c, z);
      var d: Caps :| Span(at, Put(c, 0, at), z.at, d) in Denote(n, w) && z.caps == Put(d, 1, z.at);
      DenoteSane(n, groups, w, Span(at, Put(c, 0, at), z.at, d));
      assert |z.caps| == slots && z.caps[0] == at && z.caps[1] == z.at;
    } else {
      forall j: nat ensures !InLanguage(n, w, at, j) {
        if InLanguage(n, w, at, j) {
          var c0: Caps, d0: Caps :| Span(at, c0, j, d0) in Denote(n, w);
          var d := CapsFree(n, groups, w, Span(at, c0, j, d0), Put(c, 0, at));
          var y := Conf(|p.code| - 1, j, Put(d, 1, j));
          assert L.MatchesTo(n, w, at, c, j, y.caps);
          L.AcceptIsMatch(n, groups, w, at, c, y);
        }
      }
    }
  }

  /** The search reports a match exactly when the language has one at or after
   *  `from`, and then a leftmost one. */
  lemma {:induction false} SearchIsLeftmost(n: Node, groups: nat, w: Text, from: nat)
    requires GroupsWithin(n, groups) && Linked(Compiled(n)) && |Compiled(n).code| > 0
    ensures var r := Search(Compiled(n), w, 2 * (groups + 1), from);
            && (r.Some? ==> |r.value| == 2 * (groups + 1) && Leftmost(n, w, from, r.value))
            && (r.None? ==> forall i: nat, j: nat :: from <= i <= |w| ==> !InLanguage(n, w, i, j))
    decreases |w| + 1 - from
  {
    hide RunFrom, Compiled, InLanguage, L.MatchesTo;
    if from <= |w| {
      RunFromIsMatch(n, groups, w, from);
      SearchIsLeftmost(n, groups, w, from + 1);
    }
  }

  lemma CompiledIsLinked(n: Node, groups: nat)
    requires GroupsWithin(n, groups)
    ensures L.WellFormed(Compiled(n), 2 * (groups + 1)) && Linked(Compiled(n)) && |Compiled(n).code| > 0
  {
    hide Compiled;
    L.CompiledIsWellFormed(n, groups);
    RegexSearch.WellFormedIsLinked(Compiled(n), 2 * (groups + 1));
  }

  /** What the prioritised backtracker makes of the compiled pattern. */
  ghost function Backtracked(n: Node, groups: nat, w: Text, from: nat): Option<Caps>
    requires GroupsWithin(n, groups)
  {
    CompiledIsLinked(n, groups);
    Search(Compiled(n), w, 2 * (groups + 1), from)
  }

  datatype Outcome = TooLarge | NoMatch | Found(caps: Caps)

  /** Compile, then search from position `from`: what finding a pattern does.
   *  Of the matches at the leftmost start, it is the one that the prioritised
   *  backtracker finds first: the first of the tree's tries, and where no loop's
   *  body matches the empty text, the first match in the tree's own order. */
  method Find(n: Node, groups: nat, w: Text, from: nat) returns (r: Outcome, ghost calls: nat)
    requires GroupsWithin(n, groups)
    ensures r.TooLarge? <==> |Compiled(n).code| > 20000
    ensures r.Found? ==> |r.caps| == 2 * (groups + 1) && Leftmost(n, w, from, r.caps)
    ensures r.Found? ==> Backtracked(n, groups, w, from) == Some(r.caps)
    ensures r.Found? ==> P.FirstPreferred(n, w, 2 * (groups + 1), from) == Some(r.caps)
    ensures r.Found? && EveryRoundTakes(n) ==> FirstMatch(n, w, 2 * (groups + 1), from) == Some(r.caps)
    ensures r.NoMatch? ==> forall i: nat, j: nat :: from <= i <= |w| ==> !InLanguage(n, w, i, j)
    ensures calls <= if from <= |w| then (|w| - from + 2) * (3 * |Compiled(n).code| + 1) else 0
  {
    hide Compiled, InLanguage, L.MatchesTo, Search, L.WellFormed, Linked, P.FirstPreferred, FirstMatch, EveryRoundTakes;
    calls := 0;
    var ok, p := RegexEmitter.Compile(n);
    if !ok {
      NoCalls(|w|, from, |Compiled(n).code|);
      return TooLarge, 0;
    }
    CompiledIsLinked(n, groups);
    var matched, out;
    matched, out, calls := RegexSearch.RxSearch(p, 2 * (groups + 1), w, from);
    SearchIsLeftmost(n, groups, w, from);
    P.SearchIsPreferred(n, groups, w, from);
    if EveryRoundTakes(n) { PreferredIsFirst(n, w, 2 * (groups + 1), from); }
    r := if matched then Found(out) else NoMatch;
  }

  lemma NoCalls(len: nat, from: nat, size: nat)
    ensures from <= len ==> 0 <= (len - from + 2) * (3 * size + 1)
  {}
}
