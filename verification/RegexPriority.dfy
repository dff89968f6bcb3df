/** Which match the search prefers: the first of a tree's matches in the order in which they are to
 *  be tried, left branch before right, and a greedy repeat's next round before its end. */
module RegexPriority {
  import opened Options
  import opened RegexTree
  import opened RegexProgram
  import opened RegexBacktrack
  import opened RegexCompiler
  import L = RegexLayout

  /* -------------------------------------------------------- the order of the tries */

  /** A match that ends at `at`; `seen` are the points of the tree passed since the last byte. */
  datatype Try = Try(at: nat, caps: Caps, seen: set<nat>)

  ghost predicate From(ts: seq<Try>, w: Text, i: nat) {
    forall k | 0 <= k < |ts| :: i <= ts[k].at <= |w|
  }

  /** The matches of k in w from i on, the preferred first.  The points of k are numbered from pos
   *  on; a point that was passed since the last byte is not passed again. */
  ghost function Tries(p: Program, w: Text, k: Core, pos: nat, i: nat, c: Caps, seen: set<nat>): (ts: seq<Try>)
    requires i <= |w|
    ensures From(ts, w, i)
    decreases k, |w| - i, 1, 0
  {
    if k.Nil? then [Try(i, c, seen)]
    else if k.Seq? then TriesEach(p, w, k.second, pos + Size(k.first), Tries(p, w, k.first, pos, i, c, seen), i)
    else if pos in seen then []
    else
      var past := seen + {pos};
      match k
      case Atom(ins) => AtomTries(p, w, ins, i, c, past)
      case Or(a, b) =>
        PassBy(Tries(p, w, a, pos + 1, i, c, past), pos + 1 + Size(a), w, i)
        + Tries(p, w, b, pos + 2 + Size(a), i, c, past)
      case Star(a, greedy) =>
        var more := TriesAgain(p, w, k, pos, Tries(p, w, a, pos + 1, i, c, past), i);
        if greedy then more + [Try(i, c, past)] else [Try(i, c, past)] + more
      case Opt(a, greedy) =>
        var once := Tries(p, w, a, pos + 1, i, c, past);
        if greedy then once + [Try(i, c, past)] else [Try(i, c, past)] + once
  }

  ghost function AtomTries(p: Program, w: Text, ins: Inst, i: nat, c: Caps, past: set<nat>): (ts: seq<Try>)
    requires i <= |w|
    ensures From(ts, w, i)
  {
    if ins.op.OpSave? then [Try(i, Put(c, ins.x, i), past)]
    else if (ins.op.OpBol? && i == 0) || (ins.op.OpEol? && i == |w|) then [Try(i, c, past)]
    else if Consumes(p, ins, w, i) then [Try(i + 1, c, {})]
    else []
  }

  /** Those of ts that can go on past point q. */
  ghost function PassBy(ts: seq<Try>, q: nat, w: Text, i: nat): (us: seq<Try>)
    requires From(ts, w, i)
    ensures From(us, w, i)
  {
    if ts == [] then []
    else (if q in ts[0].seen then [] else [ts[0].(seen := ts[0].seen + {q})]) + PassBy(ts[1..], q, w, i)
  }

  ghost function TriesEach(p: Program, w: Text, k: Core, pos: nat, ts: seq<Try>, i: nat): (us: seq<Try>)
    requires From(ts, w, i)
    ensures From(us, w, i)
    decreases k, |w| + 1, 0, |ts|
  {
    if ts == [] then []
    else Tries(p, w, k, pos, ts[0].at, ts[0].caps, ts[0].seen) + TriesEach(p, w, k, pos, ts[1..], i)
  }

  /** Another round after each of ts, which were one round from i; one that took no byte is none. */
  ghost function TriesAgain(p: Program, w: Text, k: Core, pos: nat, ts: seq<Try>, i: nat): (us: seq<Try>)
    requires k.Star? && i <= |w| && From(ts, w, i)
    ensures From(us, w, i)
    decreases k, |w| - i, 0, |ts|
  {
    if ts == [] then []
    else
      var t, back := ts[0], pos + 1 + Size(k.inner);
      (if t.at > i && back !in t.seen then Tries(p, w, k, pos, t.at, t.caps, t.seen + {back}) else [])
      + TriesAgain(p, w, k, pos, ts[1..], i)
  }

  /** The tries of a core, from those of its parts. */
  lemma UnfoldTries(p: Program, w: Text, k: Core, pos: nat, i: nat, c: Caps, seen: set<nat>)
    requires i <= |w|
    ensures k.Nil? ==> Tries(p, w, k, pos, i, c, seen) == [Try(i, c, seen)]
    ensures k.Seq? ==>
              var x := Tries(p, w, k.first, pos, i, c, seen);
              Tries(p, w, k, pos, i, c, seen) == TriesEach(p, w, k.second, pos + Size(k.first), x, i)
    ensures !k.Nil? && !k.Seq? && pos in seen ==> Tries(p, w, k, pos, i, c, seen) == []
    ensures k.Atom? && pos !in seen ==>
              Tries(p, w, k, pos, i, c, seen) == AtomTries(p, w, k.ins, i, c, seen + {pos})
    ensures k.Or? && pos !in seen ==>
              var x, y := Tries(p, w, k.first, pos + 1, i, c, seen + {pos}),
                          Tries(p, w, k.second, pos + 2 + Size(k.first), i, c, seen + {pos});
              Tries(p, w, k, pos, i, c, seen) == PassBy(x, pos + 1 + Size(k.first), w, i) + y
    ensures k.Star? && pos !in seen ==>
              var more, stop := TriesAgain(p, w, k, pos, Tries(p, w, k.inner, pos + 1, i, c, seen + {pos}), i),
                                [Try(i, c, seen + {pos})];
              Tries(p, w, k, pos, i, c, seen) == if k.greedy then more + stop else stop + more
    ensures k.Opt? && pos !in seen ==>
              var once, stop := Tries(p, w, k.inner, pos + 1, i, c, seen + {pos}), [Try(i, c, seen + {pos})];
              Tries(p, w, k, pos, i, c, seen) == if k.greedy then once + stop else stop + once
  {
    hide PassBy, TriesAgain, TriesEach, AtomTries, Size;
  }

  /* -------------------------------------------------------- the points passed */

  /** No byte taken: the points are remembered.  And none is new that is not between lo and hi. */
  ghost predicate Passed(ts: seq<Try>, i: nat, seen: set<nat>, lo: nat, hi: nat) {
    forall k | 0 <= k < |ts| ::
      (ts[k].at == i ==> seen <= ts[k].seen)
      && forall q | q in ts[k].seen :: (ts[k].at == i && q in seen) || lo <= q < hi
  }

  lemma {:induction false} TriesPassed(p: Program, w: Text, k: Core, pos: nat, i: nat, c: Caps, seen: set<nat>)
    requires i <= |w|
    ensures Passed(Tries(p, w, k, pos, i, c, seen), i, seen, pos, pos + Size(k))
    decreases k, |w| - i, 2, 0
  {
    hide *;
    UnfoldTries(p, w, k, pos, i, c, seen);
    if k.Nil? {
      PassedOne(i, c, seen, pos, pos + Size(k));
    } else if k.Seq? {
      SizeParts(k);
      TriesPassed(p, w, k.first, pos, i, c, seen);
      EachPassed(p, w, k.second, pos + Size(k.first), Tries(p, w, k.first, pos, i, c, seen), i, seen, pos);
    } else if pos in seen {
      PassedNone(i, seen, pos, pos + Size(k));
    } else if k.Atom? {
      SizeParts(k);
      AtomPassed(p, w, k.ins, i, c, seen, pos);
    } else if k.Or? {
      OrPassed(p, w, k, pos, i, c, seen);
    } else if k.Star? {
      StarPassed(p, w, k, pos, i, c, seen);
    } else {
      OptPassed(p, w, k, pos, i, c, seen);
    }
  }

  lemma OrPassed(p: Program, w: Text, k: Core, pos: nat, i: nat, c: Caps, seen: set<nat>)
    requires k.Or? && pos !in seen && i <= |w|
    ensures Passed(Tries(p, w, k, pos, i, c, seen), i, seen, pos, pos + Size(k))
    decreases k, |w| - i, 0, 0
  {
    hide *;
    UnfoldTries(p, w, k, pos, i, c, seen);
    SizeParts(k);
    var past, q, hi := seen + {pos}, pos + 1 + Size(k.first), pos + Size(k);
    var x, y := Tries(p, w, k.first, pos + 1, i, c, past), Tries(p, w, k.second, q + 1, i, c, past);
    TriesPassed(p, w, k.first, pos + 1, i, c, past);
    PassByPassed(x, q, w, i, past, pos + 1, hi);
    TriesPassed(p, w, k.second, q + 1, i, c, past);
    PassedFrom(PassBy(x, q, w, i), i, seen, pos, pos + 1, hi, hi);
    PassedFrom(y, i, seen, pos, q + 1, hi, hi);
    PassedJoin(PassBy(x, q, w, i), y, i, seen, pos, hi);
  }

  lemma StarPassed(p: Program, w: Text, k: Core, pos: nat, i: nat, c: Caps, seen: set<nat>)
    requires k.Star? && pos !in seen && i <= |w|
    ensures Passed(Tries(p, w, k, pos, i, c, seen), i, seen, pos, pos + Size(k))
    decreases k, |w| - i, 1, 0
  {
    hide *;
    UnfoldTries(p, w, k, pos, i, c, seen);
    SizeParts(k);
    var past, hi := seen + {pos}, pos + Size(k);
    var x, stop := Tries(p, w, k.inner, pos + 1, i, c, past), [Try(i, c, past)];
    TriesPassed(p, w, k.inner, pos + 1, i, c, past);
    AgainPassed(p, w, k, pos, x, i, past);
    var more := TriesAgain(p, w, k, pos, x, i);
    PassedFrom(more, i, seen, pos, pos, hi, hi);
    StopPassed(i, c, seen, pos, hi);
    PassedJoin(more, stop, i, seen, pos, hi);
    PassedJoin(stop, more, i, seen, pos, hi);
  }

  lemma OptPassed(p: Program, w: Text, k: Core, pos: nat, i: nat, c: Caps, seen: set<nat>)
    requires k.Opt? && pos !in seen && i <= |w|
    ensures Passed(Tries(p, w, k, pos, i, c, seen), i, seen, pos, pos + Size(k))
    decreases k, |w| - i, 0, 0
  {
    hide *;
    UnfoldTries(p, w, k, pos, i, c, seen);
    SizeParts(k);
    var past, hi := seen + {pos}, pos + Size(k);
    var x, stop := Tries(p, w, k.inner, pos + 1, i, c, past), [Try(i, c, past)];
    TriesPassed(p, w, k.inner, pos + 1, i, c, past);
    PassedFrom(x, i, seen, pos, pos + 1, pos + 1 + Size(k.inner), hi);
    StopPassed(i, c, seen, pos, hi);
    PassedJoin(x, stop, i, seen, pos, hi);
    PassedJoin(stop, x, i, seen, pos, hi);
  }

  lemma StopPassed(i: nat, c: Caps, seen: set<nat>, pos: nat, hi: nat)
    requires pos < hi
    ensures Passed([Try(i, c, seen + {pos})], i, seen, pos, hi)
  {}

  lemma PassedOne(i: nat, c: Caps, seen: set<nat>, lo: nat, hi: nat)
    ensures Passed([Try(i, c, seen)], i, seen, lo, hi)
  {}

  lemma PassedNone(i: nat, seen: set<nat>, lo: nat, hi: nat)
    ensures Passed([], i, seen, lo, hi)
  {}

  lemma PassedJoin(x: seq<Try>, y: seq<Try>, i: nat, seen: set<nat>, lo: nat, hi: nat)
    requires Passed(x, i, seen, lo, hi) && Passed(y, i, seen, lo, hi)
    ensures Passed(x + y, i, seen, lo, hi)
  {}

  lemma PassedFrom(ts: seq<Try>, i: nat, seen: set<nat>, pos: nat, lo: nat, top: nat, hi: nat)
    requires Passed(ts, i, seen + {pos}, lo, top) && pos <= lo && top <= hi && pos < hi
    ensures Passed(ts, i, seen, pos, hi)
  {}

  lemma AtomPassed(p: Program, w: Text, ins: Inst, i: nat, c: Caps, seen: set<nat>, pos: nat)
    requires i <= |w|
    ensures Passed(AtomTries(p, w, ins, i, c, seen + {pos}), i, seen, pos, pos + 1)
  {}

  lemma SizeParts(k: Core)
    ensures k.Nil? ==> Size(k) == 0
    ensures k.Atom? ==> Size(k) == 1
    ensures k.Seq? ==> Size(k) == Size(k.first) + Size(k.second)
    ensures k.Or? ==> Size(k) == Size(k.first) + Size(k.second) + 2
    ensures k.Star? ==> Size(k) == Size(k.inner) + 2
    ensures k.Opt? ==> Size(k) == Size(k.inner) + 1
  {}

  lemma {:induction false} PassByPassed(ts: seq<Try>, q: nat, w: Text, i: nat, seen: set<nat>, lo: nat, hi: nat)
    requires From(ts, w, i) && Passed(ts, i, seen, lo, q) && lo <= q < hi
    ensures Passed(PassBy(ts, q, w, i), i, seen, lo, hi)
  {
    if ts != [] { PassByPassed(ts[1..], q, w, i, seen, lo, hi); }
  }

  lemma {:induction false} EachPassed(p: Program, w: Text, k: Core, pos: nat, ts: seq<Try>, i: nat, seen: set<nat>,
                                      lo: nat)
    requires From(ts, w, i) && Passed(ts, i, seen, lo, pos) && lo <= pos
    ensures Passed(TriesEach(p, w, k, pos, ts, i), i, seen, lo, pos + Size(k))
    decreases k, |w| + 1, 0, |ts|
  {
    if ts != [] {
      TriesPassed(p, w, k, pos, ts[0].at, ts[0].caps, ts[0].seen);
      EachPassed(p, w, k, pos, ts[1..], i, seen, lo);
    }
  }

  lemma {:induction false} AgainPassed(p: Program, w: Text, k: Core, pos: nat, ts: seq<Try>, i: nat, seen: set<nat>)
    requires k.Star? && i <= |w| && From(ts, w, i) && Passed(ts, i, seen, pos + 1, pos + 1 + Size(k.inner))
    ensures Passed(TriesAgain(p, w, k, pos, ts, i), i, seen, pos, pos + Size(k))
    decreases k, |w| - i, 0, |ts|
  {
    if ts != [] {
      var t, back := ts[0], pos + 1 + Size(k.inner);
      if t.at > i && back !in t.seen { TriesPassed(p, w, k, pos, t.at, t.caps, t.seen + {back}); }
      AgainPassed(p, w, k, pos, ts[1..], i, seen);
    }
  }

  /* -------------------------------------------------------- the program tries in that order */

  /** What the backtracker makes of the program from point pc on. */
  ghost function Rest(p: Program, w: Text, pc: nat, t: Try): Option<Caps>
    requires Linked(p) && pc < |p.code| && t.at <= |w|
  {
    RunAll(p, w, Closure(p, w, pc, t.at, t.caps, t.seen), t.at)
  }

  /** The first of ts from which it accepts. */
  ghost function FirstOf(p: Program, w: Text, pc: nat, ts: seq<Try>, i: nat): Option<Caps>
    requires Linked(p) && pc < |p.code| && From(ts, w, i)
  {
    if ts == [] then None else OrElse(Rest(p, w, pc, ts[0]), FirstOf(p, w, pc, ts[1..], i))
  }

  lemma {:induction false} FirstAppend(p: Program, w: Text, pc: nat, x: seq<Try>, y: seq<Try>, i: nat)
    requires Linked(p) && pc < |p.code| && From(x, w, i) && From(y, w, i)
    ensures From(x + y, w, i)
    ensures FirstOf(p, w, pc, x + y, i) == OrElse(FirstOf(p, w, pc, x, i), FirstOf(p, w, pc, y, i))
  {
    hide Rest;
    if x == [] {
      assert x + y == y;
    } else {
      assert (x + y)[1..] == x[1..] + y;
      FirstAppend(p, w, pc, x[1..], y, i);
    }
  }

  lemma {:induction false} FirstLater(p: Program, w: Text, pc: nat, ts: seq<Try>, i: nat, j: nat)
    requires Linked(p) && pc < |p.code| && From(ts, w, j) && i <= j
    ensures From(ts, w, i) && FirstOf(p, w, pc, ts, i) == FirstOf(p, w, pc, ts, j)
  {
    hide Rest;
    if ts != [] { FirstLater(p, w, pc, ts[1..], i, j); }
  }

  lemma FirstOne(p: Program, w: Text, pc: nat, t: Try, i: nat)
    requires Linked(p) && pc < |p.code| && i <= t.at <= |w|
    ensures From([t], w, i) && FirstOf(p, w, pc, [t], i) == Rest(p, w, pc, t)
  {
    hide Rest;
    assert [t][1..] == [];
    assert FirstOf(p, w, pc, [], i) == None;
  }

  /** A point already passed leads nowhere. */
  lemma RestStuck(p: Program, w: Text, pc: nat, t: Try)
    requires Linked(p) && pc < |p.code| && t.at <= |w| && pc in t.seen
    ensures Rest(p, w, pc, t) == None
  {}

  /** A step that takes no byte, to one point or to a choice of two. */
  lemma RestNext(p: Program, w: Text, pc: nat, t: Try)
    requires Linked(p) && pc < |p.code| && t.at <= |w| && pc !in t.seen && IsEps(p.code[pc].op)
    ensures var next := Next(p, w, pc, t.at);
      var u := Try(t.at, Saved(p, pc, t.at, t.caps), t.seen + {pc});
      (|next| == 0 ==> Rest(p, w, pc, t) == None)
      && (|next| == 1 ==> Rest(p, w, pc, t) == Rest(p, w, next[0], u))
      && (|next| == 2 ==> Rest(p, w, pc, t) == OrElse(Rest(p, w, next[0], u), Rest(p, w, next[1], u)))
  {
    var next := Next(p, w, pc, t.at);
    var c, seen := Saved(p, pc, t.at, t.caps), t.seen + {pc};
    ClosureStep(p, w, pc, t.at, t.caps, t.seen);
    hide Closure, ClosureAll, RunThread, RunAll, Next, Linked;
    if |next| == 0 {
      NoClosure(p, w, next, t.at, c, seen);
    } else {
      OneClosure(p, w, next, t.at, c, seen);
      if |next| == 2 {
        OneClosure(p, w, next[1..], t.at, c, seen);
        RunJoin(p, w, Closure(p, w, next[0], t.at, c, seen), Closure(p, w, next[1], t.at, c, seen), t.at);
      }
    }
  }

  lemma ClosureStep(p: Program, w: Text, pc: nat, at: nat, c: Caps, seen: set<nat>)
    requires Linked(p) && pc < |p.code| && at <= |w| && pc !in seen && IsEps(p.code[pc].op)
    ensures Closure(p, w, pc, at, c, seen) == ClosureAll(p, w, Next(p, w, pc, at), at, Saved(p, pc, at, c), seen + {pc})
    ensures |Next(p, w, pc, at)| <= 2 && forall i | 0 <= i < |Next(p, w, pc, at)| :: Next(p, w, pc, at)[i] < |p.code|
    ensures Rest(p, w, pc, Try(at, c, seen)) == RunAll(p, w, Closure(p, w, pc, at, c, seen), at)
  {}

  lemma NoClosure(p: Program, w: Text, pcs: seq<nat>, at: nat, c: Caps, seen: set<nat>)
    requires Linked(p) && RegexBacktrack.Within(p, pcs) && pcs == [] && at <= |w|
    ensures RunAll(p, w, ClosureAll(p, w, pcs, at, c, seen), at) == None
  {}

  lemma OneClosure(p: Program, w: Text, pcs: seq<nat>, at: nat, c: Caps, seen: set<nat>)
    requires Linked(p) && RegexBacktrack.Within(p, pcs) && pcs != []
    ensures RegexBacktrack.Within(p, pcs[1..]) && pcs[0] < |p.code|
    ensures ClosureAll(p, w, pcs, at, c, seen)
         == Closure(p, w, pcs[0], at, c, seen) + ClosureAll(p, w, pcs[1..], at, c, seen)
    ensures |pcs| == 1 ==> ClosureAll(p, w, pcs, at, c, seen) == Closure(p, w, pcs[0], at, c, seen)
  {
    hide Closure;
  }

  /** A step that takes a byte, if it is there. */
  lemma RestTakes(p: Program, w: Text, pc: nat, t: Try)
    requires Linked(p) && pc < |p.code| && t.at <= |w| && pc !in t.seen
    requires !IsEps(p.code[pc].op) && !p.code[pc].op.OpMatch?
    ensures if Consumes(p, p.code[pc], w, t.at) then
              t.at < |w| && pc + 1 < |p.code| && Rest(p, w, pc, t) == Rest(p, w, pc + 1, Try(t.at + 1, t.caps, {}))
            else Rest(p, w, pc, t) == None
  {
    var ts := [Thread(pc, t.caps)];
    assert Closure(p, w, pc, t.at, t.caps, t.seen) == ts && ts[1..] == [];
    assert LinkedInst(p.code[pc], pc, |p.code|);
    assert RunAll(p, w, [], t.at) == None;
    assert RunAll(p, w, ts, t.at) == OrElse(RunThread(p, w, ts[0], t.at), None);
  }

  lemma RestMatch(p: Program, w: Text, pc: nat, t: Try)
    requires Linked(p) && pc < |p.code| && t.at <= |w| && pc !in t.seen && p.code[pc].op.OpMatch?
    ensures Rest(p, w, pc, t) == Some(t.caps)
  {
    var ts := [Thread(pc, t.caps)];
    assert Closure(p, w, pc, t.at, t.caps, t.seen) == ts && ts[1..] == [];
    assert RunAll(p, w, [], t.at) == None;
    assert RunAll(p, w, ts, t.at) == OrElse(RunThread(p, w, ts[0], t.at), None);
  }

  /** k stands at pos, with something after it. */
  ghost predicate Stands(p: Program, k: Core, slots: nat, pos: nat) {
    Linked(p) && Placed(p.code, k, pos) && pos + Size(k) < |p.code| && L.CoreWithin(k, |p.sets|, slots)
  }

  /** So from k's first point on, the backtracker makes of the program what it makes of what comes
   *  after k, from the first of k's tries from which that accepts. */
  lemma {:induction false} TriesRun(p: Program, w: Text, k: Core, slots: nat, pos: nat, i: nat, c: Caps, seen: set<nat>)
    requires Stands(p, k, slots, pos) && i <= |w|
    ensures Rest(p, w, pos, Try(i, c, seen)) == FirstOf(p, w, pos + Size(k), Tries(p, w, k, pos, i, c, seen), i)
    decreases k, |w| - i, 2, 0
  {
    hide *;
    if k.Nil? {
      NilRun(p, w, k, slots, pos, i, c, seen);
    } else if k.Seq? {
      SeqRun(p, w, k, slots, pos, i, c, seen);
    } else if pos in seen {
      StuckRun(p, w, k, slots, pos, i, c, seen);
    } else {
      match k
      case Atom(_) => AtomRun(p, w, k, slots, pos, i, c, seen);
      case Or(_, _) => OrRun(p, w, k, slots, pos, i, c, seen);
      case Star(_, _) => StarRun(p, w, k, slots, pos, i, c, seen);
      case Opt(_, _) => OptRun(p, w, k, slots, pos, i, c, seen);
    }
  }

  lemma NilRun(p: Program, w: Text, k: Core, slots: nat, pos: nat, i: nat, c: Caps, seen: set<nat>)
    requires Stands(p, k, slots, pos) && k.Nil? && i <= |w|
    ensures Rest(p, w, pos, Try(i, c, seen)) == FirstOf(p, w, pos + Size(k), Tries(p, w, k, pos, i, c, seen), i)
  {
    hide Rest;
    FirstOne(p, w, pos, Try(i, c, seen), i);
  }

  lemma StuckRun(p: Program, w: Text, k: Core, slots: nat, pos: nat, i: nat, c: Caps, seen: set<nat>)
    requires Stands(p, k, slots, pos) && !k.Nil? && !k.Seq? && pos in seen && i <= |w|
    ensures Rest(p, w, pos, Try(i, c, seen)) == FirstOf(p, w, pos + Size(k), Tries(p, w, k, pos, i, c, seen), i)
  {
    RestStuck(p, w, pos, Try(i, c, seen));
  }

  lemma AtomRun(p: Program, w: Text, k: Core, slots: nat, pos: nat, i: nat, c: Caps, seen: set<nat>)
    requires Stands(p, k, slots, pos) && k.Atom? && pos !in seen && i <= |w|
    ensures Rest(p, w, pos, Try(i, c, seen)) == FirstOf(p, w, pos + Size(k), Tries(p, w, k, pos, i, c, seen), i)
  {
    hide *;
    UnfoldTries(p, w, k, pos, i, c, seen);
    SizeParts(k);
    AtomStands(p, k, slots, pos);
    var ts := AtomTries(p, w, k.ins, i, c, seen + {pos});
    if IsEps(k.ins.op) {
      StillAtomRun(p, w, k.ins, pos, i, c, seen);
    } else {
      ByteAtomRun(p, w, k.ins, pos, i, c, seen);
    }
  }

  lemma AtomStands(p: Program, k: Core, slots: nat, pos: nat)
    requires Stands(p, k, slots, pos) && k.Atom?
    ensures Linked(p) && pos + 1 < |p.code| && p.code[pos] == k.ins
    ensures !k.ins.op.OpMatch? && !k.ins.op.OpJmp? && !k.ins.op.OpSplit?
  {
    hide Linked;
  }

  lemma StillAtomRun(p: Program, w: Text, ins: Inst, pos: nat, i: nat, c: Caps, seen: set<nat>)
    requires Linked(p) && pos + 1 < |p.code| && p.code[pos] == ins && IsEps(ins.op) && pos !in seen && i <= |w|
    requires !ins.op.OpJmp? && !ins.op.OpSplit?
    ensures Rest(p, w, pos, Try(i, c, seen))
         == FirstOf(p, w, pos + 1, AtomTries(p, w, ins, i, c, seen + {pos}), i)
  {
    hide Rest, Linked;
    RestNext(p, w, pos, Try(i, c, seen));
    if |Next(p, w, pos, i)| == 1 {
      FirstOne(p, w, pos + 1, Try(i, Saved(p, pos, i, c), seen + {pos}), i);
    }
  }

  lemma ByteAtomRun(p: Program, w: Text, ins: Inst, pos: nat, i: nat, c: Caps, seen: set<nat>)
    requires Linked(p) && pos + 1 < |p.code| && p.code[pos] == ins && !IsEps(ins.op) && !ins.op.OpMatch?
    requires pos !in seen && i <= |w|
    ensures Rest(p, w, pos, Try(i, c, seen))
         == FirstOf(p, w, pos + 1, AtomTries(p, w, ins, i, c, seen + {pos}), i)
  {
    hide Rest, Linked, Consumes;
    RestTakes(p, w, pos, Try(i, c, seen));
    if Consumes(p, ins, w, i) { FirstOne(p, w, pos + 1, Try(i + 1, c, {}), i); }
  }

  lemma StandsParts(p: Program, k: Core, slots: nat, pos: nat)
    requires Stands(p, k, slots, pos)
    ensures k.Seq? ==> Stands(p, k.first, slots, pos) && Stands(p, k.second, slots, pos + Size(k.first))
    ensures k.Or? ==> Stands(p, k.first, slots, pos + 1) && Stands(p, k.second, slots, pos + 2 + Size(k.first))
    ensures k.Star? || k.Opt? ==> Stands(p, k.inner, slots, pos + 1)
    ensures k.Seq? ==> Size(k) == Size(k.first) + Size(k.second)
    ensures k.Or? ==> Size(k) == Size(k.first) + Size(k.second) + 2
    ensures k.Star? ==> Size(k) == Size(k.inner) + 2
    ensures k.Opt? ==> Size(k) == Size(k.inner) + 1
  {
    UnfoldPlaced(p.code, k, pos);
  }

  /** A split leads to its first branch, and to its second if that fails; a jump leads on. */
  lemma RestSplits(p: Program, w: Text, pc: nat, t: Try, x: nat, y: nat)
    requires Linked(p) && pc < |p.code| && t.at <= |w| && pc !in t.seen && x < |p.code| && y < |p.code|
    requires p.code[pc] == SplitInst(x, y)
    ensures var u := t.(seen := t.seen + {pc});
      Rest(p, w, pc, t) == OrElse(Rest(p, w, x, u), Rest(p, w, y, u))
  {
    hide Rest, Linked;
    RestNext(p, w, pc, t);
  }

  lemma RestJumps(p: Program, w: Text, pc: nat, t: Try, x: nat)
    requires Linked(p) && pc < |p.code| && t.at <= |w| && pc !in t.seen && x < |p.code| && p.code[pc] == JmpInst(x)
    ensures Rest(p, w, pc, t) == Rest(p, w, x, t.(seen := t.seen + {pc}))
  {
    hide Rest, Linked;
    RestNext(p, w, pc, t);
  }

  /** The instructions of k's own. */
  lemma StandsCode(p: Program, k: Core, slots: nat, pos: nat)
    requires Stands(p, k, slots, pos)
    ensures Linked(p) && pos + Size(k) < |p.code|
    ensures k.Or? ==> p.code[pos] == SplitInst(pos + 1, pos + 2 + Size(k.first))
    ensures k.Or? ==> p.code[pos + 1 + Size(k.first)] == JmpInst(pos + Size(k))
    ensures k.Star? || k.Opt? ==>
              p.code[pos] == if k.greedy then SplitInst(pos + 1, pos + Size(k)) else SplitInst(pos + Size(k), pos + 1)
    ensures k.Star? ==> p.code[pos + 1 + Size(k.inner)] == JmpInst(pos)
  {
    UnfoldPlaced(p.code, k, pos);
    hide Linked;
  }

  lemma SeqRun(p: Program, w: Text, k: Core, slots: nat, pos: nat, i: nat, c: Caps, seen: set<nat>)
    requires Stands(p, k, slots, pos) && k.Seq? && i <= |w|
    ensures Rest(p, w, pos, Try(i, c, seen)) == FirstOf(p, w, pos + Size(k), Tries(p, w, k, pos, i, c, seen), i)
    decreases k, |w| - i, 1, 0
  {
    hide *;
    StandsParts(p, k, slots, pos);
    StandsCode(p, k, slots, pos);
    UnfoldTries(p, w, k, pos, i, c, seen);
    TriesRun(p, w, k.first, slots, pos, i, c, seen);
    EachRun(p, w, k.second, slots, pos + Size(k.first), Tries(p, w, k.first, pos, i, c, seen), i);
  }

  lemma {:induction false} EachRun(p: Program, w: Text, k: Core, slots: nat, pos: nat, ts: seq<Try>, i: nat)
    requires Stands(p, k, slots, pos) && From(ts, w, i)
    ensures FirstOf(p, w, pos, ts, i) == FirstOf(p, w, pos + Size(k), TriesEach(p, w, k, pos, ts, i), i)
    decreases k, |w| + 1, 0, |ts|
  {
    hide Rest, Placed, L.CoreWithin, Tries, Size, Linked;
    if ts != [] {
      var t := ts[0];
      var x := Tries(p, w, k, pos, t.at, t.caps, t.seen);
      TriesRun(p, w, k, slots, pos, t.at, t.caps, t.seen);
      EachRun(p, w, k, slots, pos, ts[1..], i);
      FirstLater(p, w, pos + Size(k), x, i, t.at);
      FirstAppend(p, w, pos + Size(k), x, TriesEach(p, w, k, pos, ts[1..], i), i);
    }
  }

  /** A jump: those that can go on past it do, at the end. */
  lemma {:induction false} PassByRun(p: Program, w: Text, q: nat, end: nat, ts: seq<Try>, i: nat)
    requires Linked(p) && q < |p.code| && p.code[q] == JmpInst(end) && end < |p.code| && From(ts, w, i)
    ensures FirstOf(p, w, q, ts, i) == FirstOf(p, w, end, PassBy(ts, q, w, i), i)
  {
    hide Rest, Linked;
    if ts != [] {
      PassByRun(p, w, q, end, ts[1..], i);
      var t := ts[0];
      if q in t.seen {
        RestStuck(p, w, q, t);
        assert [] + PassBy(ts[1..], q, w, i) == PassBy(ts[1..], q, w, i);
      } else {
        RestNext(p, w, q, t);
        var u := t.(seen := t.seen + {q});
        FirstOne(p, w, end, u, i);
        FirstAppend(p, w, end, [u], PassBy(ts[1..], q, w, i), i);
      }
    }
  }

  lemma OrRun(p: Program, w: Text, k: Core, slots: nat, pos: nat, i: nat, c: Caps, seen: set<nat>)
    requires Stands(p, k, slots, pos) && k.Or? && pos !in seen && i <= |w|
    ensures Rest(p, w, pos, Try(i, c, seen)) == FirstOf(p, w, pos + Size(k), Tries(p, w, k, pos, i, c, seen), i)
    decreases k, |w| - i, 1, 0
  {
    hide *;
    StandsParts(p, k, slots, pos);
    StandsCode(p, k, slots, pos);
    UnfoldTries(p, w, k, pos, i, c, seen);
    var past, end, q := seen + {pos}, pos + Size(k), pos + 1 + Size(k.first);
    var x, y := Tries(p, w, k.first, pos + 1, i, c, past), Tries(p, w, k.second, pos + 2 + Size(k.first), i, c, past);
    RestSplits(p, w, pos, Try(i, c, seen), pos + 1, pos + 2 + Size(k.first));
    TriesRun(p, w, k.first, slots, pos + 1, i, c, past);
    TriesRun(p, w, k.second, slots, pos + 2 + Size(k.first), i, c, past);
    PassByRun(p, w, q, end, x, i);
    FirstAppend(p, w, end, PassBy(x, q, w, i), y, i);
  }

  lemma OptRun(p: Program, w: Text, k: Core, slots: nat, pos: nat, i: nat, c: Caps, seen: set<nat>)
    requires Stands(p, k, slots, pos) && k.Opt? && pos !in seen && i <= |w|
    ensures Rest(p, w, pos, Try(i, c, seen)) == FirstOf(p, w, pos + Size(k), Tries(p, w, k, pos, i, c, seen), i)
    decreases k, |w| - i, 1, 0
  {
    hide *;
    StandsParts(p, k, slots, pos);
    StandsCode(p, k, slots, pos);
    UnfoldTries(p, w, k, pos, i, c, seen);
    var past, end := seen + {pos}, pos + Size(k);
    var x, stop := Tries(p, w, k.inner, pos + 1, i, c, past), Try(i, c, past);
    TriesRun(p, w, k.inner, slots, pos + 1, i, c, past);
    FirstOne(p, w, end, stop, i);
    if k.greedy {
      RestSplits(p, w, pos, Try(i, c, seen), pos + 1, end);
      FirstAppend(p, w, end, x, [stop], i);
    } else {
      RestSplits(p, w, pos, Try(i, c, seen), end, pos + 1);
      FirstAppend(p, w, end, [stop], x, i);
    }
  }

  lemma StarRun(p: Program, w: Text, k: Core, slots: nat, pos: nat, i: nat, c: Caps, seen: set<nat>)
    requires Stands(p, k, slots, pos) && k.Star? && pos !in seen && i <= |w|
    ensures Rest(p, w, pos, Try(i, c, seen)) == FirstOf(p, w, pos + Size(k), Tries(p, w, k, pos, i, c, seen), i)
    decreases k, |w| - i, 1, 0
  {
    hide *;
    StandsParts(p, k, slots, pos);
    StandsCode(p, k, slots, pos);
    UnfoldTries(p, w, k, pos, i, c, seen);
    var past, end := seen + {pos}, pos + Size(k);
    var x, stop := Tries(p, w, k.inner, pos + 1, i, c, past), Try(i, c, past);
    TriesRun(p, w, k.inner, slots, pos + 1, i, c, past);
    TriesPassed(p, w, k.inner, pos + 1, i, c, past);
    AgainRun(p, w, k, slots, pos, x, i, past);
    var more := TriesAgain(p, w, k, pos, x, i);
    FirstOne(p, w, end, stop, i);
    if k.greedy {
      RestSplits(p, w, pos, Try(i, c, seen), pos + 1, end);
      FirstAppend(p, w, end, more, [stop], i);
    } else {
      RestSplits(p, w, pos, Try(i, c, seen), end, pos + 1);
      FirstAppend(p, w, end, [stop], more, i);
    }
  }

  lemma {:induction false} AgainRun(p: Program, w: Text, k: Core, slots: nat, pos: nat, ts: seq<Try>, i: nat,
                                    past: set<nat>)
    requires Stands(p, k, slots, pos) && k.Star? && i <= |w| && From(ts, w, i) && pos in past
    requires Passed(ts, i, past, pos + 1, pos + 1 + Size(k.inner)) && pos + 1 + Size(k.inner) < |p.code| && Linked(p)
    requires pos + Size(k) < |p.code|
    ensures FirstOf(p, w, pos + 1 + Size(k.inner), ts, i)
         == FirstOf(p, w, pos + Size(k), TriesAgain(p, w, k, pos, ts, i), i)
    decreases k, |w| - i, 0, |ts|
  {
    hide *;
    FirstParts(p, w, pos + 1 + Size(k.inner), ts, i);
    if ts != [] {
      AgainParts(p, w, k, pos, ts, i, past, pos + 1, pos + 1 + Size(k.inner));
      AgainRun(p, w, k, slots, pos, ts[1..], i, past);
      var x := RoundAgain(p, w, k, slots, pos, ts[0], i, past);
      FirstAppend(p, w, pos + Size(k), x, TriesAgain(p, w, k, pos, ts[1..], i), i);
    } else {
      AgainNone(p, w, k, pos, i);
      FirstParts(p, w, pos + Size(k), [], i);
    }
  }

  lemma FirstParts(p: Program, w: Text, pc: nat, ts: seq<Try>, i: nat)
    requires Linked(p) && pc < |p.code| && From(ts, w, i)
    ensures ts == [] ==> FirstOf(p, w, pc, ts, i) == None
    ensures ts != [] ==>
      From(ts[1..], w, i)
      && FirstOf(p, w, pc, ts, i) == OrElse(Rest(p, w, pc, ts[0]), FirstOf(p, w, pc, ts[1..], i))
  {
    hide Rest, Linked;
  }

  lemma AgainNone(p: Program, w: Text, k: Core, pos: nat, i: nat)
    requires k.Star? && i <= |w|
    ensures From([], w, i) && TriesAgain(p, w, k, pos, [], i) == []
  {}

  lemma AgainParts(p: Program, w: Text, k: Core, pos: nat, ts: seq<Try>, i: nat, past: set<nat>, lo: nat, hi: nat)
    requires k.Star? && i <= |w| && From(ts, w, i) && ts != [] && Passed(ts, i, past, lo, hi)
    ensures i <= ts[0].at <= |w| && From(ts[1..], w, i) && Passed(ts[1..], i, past, lo, hi)
    ensures ts[0].at == i ==> past <= ts[0].seen
    ensures var t, back := ts[0], pos + 1 + Size(k.inner);
      TriesAgain(p, w, k, pos, ts, i)
      == (if t.at > i && back !in t.seen then Tries(p, w, k, pos, t.at, t.caps, t.seen + {back}) else [])
         + TriesAgain(p, w, k, pos, ts[1..], i)
  {
    hide Tries, Size;
  }

  lemma RoundAgain(p: Program, w: Text, k: Core, slots: nat, pos: nat, t: Try, i: nat, past: set<nat>)
    returns (x: seq<Try>)
    requires Stands(p, k, slots, pos) && k.Star? && i <= t.at <= |w| && pos in past
    requires t.at == i ==> past <= t.seen
    ensures Linked(p) && pos + Size(k) < |p.code| && pos + 1 + Size(k.inner) < |p.code| && From(x, w, i)
    ensures var back := pos + 1 + Size(k.inner);
      x == (if t.at > i && back !in t.seen then Tries(p, w, k, pos, t.at, t.caps, t.seen + {back}) else [])
      && Rest(p, w, back, t) == FirstOf(p, w, pos + Size(k), x, i)
    decreases k, |w| - i, 0, 0
  {
    var end, back := pos + Size(k), pos + 1 + Size(k.inner);
    StandsParts(p, k, slots, pos);
    StandsCode(p, k, slots, pos);
    hide Rest, Stands, Size, Tries, Linked;
    x := [];
    if back in t.seen {
      RestStuck(p, w, back, t);
    } else {
      var u := t.(seen := t.seen + {back});
      RestJumps(p, w, back, t, pos);
      if t.at > i {
        x := Tries(p, w, k, pos, t.at, t.caps, u.seen);
        TriesRun(p, w, k, slots, pos, t.at, t.caps, u.seen);
        FirstLater(p, w, end, x, i, t.at);
      } else {
        RestStuck(p, w, pos, u);
      }
    }
  }

  /* -------------------------------------------------------- every try is a match */

  lemma {:induction false} TryIsRun(p: Program, w: Text, k: Core, pos: nat, i: nat, c: Caps, seen: set<nat>, n: nat)
    requires i <= |w| && n < |Tries(p, w, k, pos, i, c, seen)|
    ensures var t := Tries(p, w, k, pos, i, c, seen)[n]; Span(i, c, t.at, t.caps) in Runs(p, w, k)
    decreases k, |w| - i, 2, 0
  {
    hide *;
    UnfoldTries(p, w, k, pos, i, c, seen);
    var past := seen + {pos};
    if k.Nil? {
      NilRuns(p, w, k, i, c);
    } else if k.Seq? {
      var x := Tries(p, w, k.first, pos, i, c, seen);
      var m := EachIsRun(p, w, k.second, pos + Size(k.first), x, i, n);
      TryIsRun(p, w, k.first, pos, i, c, seen, m);
      var t := Tries(p, w, k, pos, i, c, seen)[n];
      SeqRuns(p, w, k.first, k.second);
      Joined(Runs(p, w, k.first), Runs(p, w, k.second), Span(i, c, t.at, t.caps), x[m].at, x[m].caps);
    } else if k.Atom? {
      AtomRunsIt(p, w, k.ins, i, c, past, n);
    } else if k.Or? {
      var x := Tries(p, w, k.first, pos + 1, i, c, past);
      var y := PassBy(x, pos + 1 + Size(k.first), w, i);
      OrRuns(p, w, k.first, k.second);
      if n < |y| {
        var m := PassedBy(x, pos + 1 + Size(k.first), w, i, n);
        TryIsRun(p, w, k.first, pos + 1, i, c, past, m);
      } else {
        TryIsRun(p, w, k.second, pos + 2 + Size(k.first), i, c, past, n - |y|);
      }
    } else if k.Opt? {
      var x := Tries(p, w, k.inner, pos + 1, i, c, past);
      OptRuns(p, w, k.inner, k.greedy, i, c);
      var m := if k.greedy then n else n - 1;
      if 0 <= m < |x| { TryIsRun(p, w, k.inner, pos + 1, i, c, past, m); }
    } else {
      var x := Tries(p, w, k.inner, pos + 1, i, c, past);
      StarRuns(p, w, k.inner, k.greedy, i, c);
      var m := if k.greedy then n else n - 1;
      if 0 <= m < |TriesAgain(p, w, k, pos, x, i)| {
        var o := AgainIsRun(p, w, k, pos, x, i, m);
        var t := TriesAgain(p, w, k, pos, x, i)[m];
        TryIsRun(p, w, k.inner, pos + 1, i, c, past, o);
        RoundRuns(p, w, k.inner, k.greedy, i, c, x[o].at, x[o].caps, t.at, t.caps);
      }
    }
  }

  lemma NilRuns(p: Program, w: Text, k: Core, i: nat, c: Caps)
    requires k.Nil?
    ensures Span(i, c, i, c) in Runs(p, w, k)
  {}

  lemma Joined(a: Rel, b: Rel, s: Span, m: nat, e: Caps)
    requires Span(s.i, s.c, m, e) in a && Span(m, e, s.j, s.d) in b
    ensures s in Then(a, b)
  {
    assert Joins(a, b, s, m, e);
  }

  lemma AtomRunsIt(p: Program, w: Text, ins: Inst, i: nat, c: Caps, past: set<nat>, n: nat)
    requires i <= |w| && n < |AtomTries(p, w, ins, i, c, past)|
    ensures var t := AtomTries(p, w, ins, i, c, past)[n]; Span(i, c, t.at, t.caps) in Runs(p, w, Atom(ins))
  {}

  lemma OrRuns(p: Program, w: Text, a: Core, b: Core)
    ensures Runs(p, w, Or(a, b)) == Runs(p, w, a) + Runs(p, w, b)
  {}

  lemma OptRuns(p: Program, w: Text, a: Core, greedy: bool, i: nat, c: Caps)
    ensures Runs(p, w, Opt(a, greedy)) == Id() + Runs(p, w, a) && Span(i, c, i, c) in Runs(p, w, Opt(a, greedy))
  {}

  lemma StarRuns(p: Program, w: Text, a: Core, greedy: bool, i: nat, c: Caps)
    ensures Span(i, c, i, c) in Runs(p, w, Star(a, greedy))
  {
    assert Span(i, c, i, c) in Power(Runs(p, w, a), 0);
  }

  lemma RoundRuns(p: Program, w: Text, a: Core, greedy: bool, i: nat, c: Caps, m: nat, e: Caps, j: nat, d: Caps)
    requires Span(i, c, m, e) in Runs(p, w, a) && Span(m, e, j, d) in Runs(p, w, Star(a, greedy))
    ensures Span(i, c, j, d) in Runs(p, w, Star(a, greedy))
  {
    L.PowerMore(Runs(p, w, a), Span(i, c, m, e), Span(m, e, j, d));
  }

  lemma {:induction false} PassedBy(ts: seq<Try>, q: nat, w: Text, i: nat, n: nat) returns (m: nat)
    requires From(ts, w, i) && n < |PassBy(ts, q, w, i)|
    ensures m < |ts| && ts[m].at == PassBy(ts, q, w, i)[n].at && ts[m].caps == PassBy(ts, q, w, i)[n].caps
  {
    if q in ts[0].seen {
      m := PassedBy(ts[1..], q, w, i, n);
      m := m + 1;
    } else if n == 0 {
      m := 0;
    } else {
      m := PassedBy(ts[1..], q, w, i, n - 1);
      m := m + 1;
    }
  }

  lemma {:induction false} EachIsRun(p: Program, w: Text, k: Core, pos: nat, ts: seq<Try>, i: nat, n: nat)
    returns (m: nat)
    requires From(ts, w, i) && n < |TriesEach(p, w, k, pos, ts, i)|
    ensures m < |ts| && var t := TriesEach(p, w, k, pos, ts, i)[n];
                        Span(ts[m].at, ts[m].caps, t.at, t.caps) in Runs(p, w, k)
    decreases k, |w| + 1, 0, |ts|
  {
    hide Tries, Runs;
    var x := Tries(p, w, k, pos, ts[0].at, ts[0].caps, ts[0].seen);
    if n < |x| {
      TryIsRun(p, w, k, pos, ts[0].at, ts[0].caps, ts[0].seen, n);
      m := 0;
    } else {
      m := EachIsRun(p, w, k, pos, ts[1..], i, n - |x|);
      m := m + 1;
    }
  }

  lemma {:induction false} AgainIsRun(p: Program, w: Text, k: Core, pos: nat, ts: seq<Try>, i: nat, n: nat)
    returns (m: nat)
    requires k.Star? && i <= |w| && From(ts, w, i) && n < |TriesAgain(p, w, k, pos, ts, i)|
    ensures m < |ts| && var t := TriesAgain(p, w, k, pos, ts, i)[n];
                        Span(ts[m].at, ts[m].caps, t.at, t.caps) in Runs(p, w, k)
    decreases k, |w| - i, 0, |ts|
  {
    hide Tries, Runs;
    var t, back := ts[0], pos + 1 + Size(k.inner);
    var x := if t.at > i && back !in t.seen then Tries(p, w, k, pos, t.at, t.caps, t.seen + {back}) else [];
    if n < |x| {
      TryIsRun(p, w, k, pos, t.at, t.caps, t.seen + {back}, n);
      m := 0;
    } else {
      m := AgainIsRun(p, w, k, pos, ts[1..], i, n - |x|);
      m := m + 1;
    }
  }

  /* -------------------------------------------------------- the whole pattern */

  /** The tries of a pattern that start at `at`. */
  ghost function TriesAt(n: Node, w: Text, slots: nat, at: nat): seq<Try>
    requires at <= |w|
  {
    Tries(Compiled(n), w, Lower(n, 0), 1, at, Put(Blanks(slots), 0, at), {0})
  }

  /** The captures of the first, with both ends of the match. */
  ghost function Preferred(n: Node, w: Text, slots: nat, at: nat): Option<Caps>
    requires at <= |w|
  {
    var ts := TriesAt(n, w, slots, at);
    if ts == [] then None else Some(Put(ts[0].caps, 1, ts[0].at))
  }

  /** The backtracker, started at `at`, comes to the first of the tries. */
  lemma RunFromIsPreferred(n: Node, groups: nat, w: Text, at: nat)
    requires GroupsWithin(n, groups) && at <= |w| && Linked(Compiled(n)) && |Compiled(n).code| > 0
    ensures RunFrom(Compiled(n), w, 2 * (groups + 1), at) == Preferred(n, w, 2 * (groups + 1), at)
  {
    hide *;
    var p, k, slots := Compiled(n), Lower(n, 0), 2 * (groups + 1);
    var c, ts := Put(Blanks(slots), 0, at), TriesAt(n, w, slots, at);
    L.CompiledIsBracketed(n, groups);
    StandsWhole(p, k, slots);
    RunFromIsRest(p, w, slots, at);
    RestSaves(p, w, 0, Try(at, Blanks(slots), {}), 0);
    EmptyAnd(0);
    TriesAtIs(n, w, slots, at);
    TriesRun(p, w, k, slots, 1, at, c, {0});
    TriesPassed(p, w, k, 1, at, c, {0});
    FirstEnds(p, w, k, slots, ts, at);
    PreferredIs(n, w, slots, at);
  }

  lemma EmptyAnd(q: nat)
    ensures {} + {q} == {q}
  {}

  lemma PreferredIs(n: Node, w: Text, slots: nat, at: nat)
    requires at <= |w|
    ensures var ts := TriesAt(n, w, slots, at);
      Preferred(n, w, slots, at) == if ts == [] then None else Some(Put(ts[0].caps, 1, ts[0].at))
  {
    hide TriesAt;
  }

  lemma TriesAtIs(n: Node, w: Text, slots: nat, at: nat)
    requires at <= |w|
    ensures TriesAt(n, w, slots, at) == Tries(Compiled(n), w, Lower(n, 0), 1, at, Put(Blanks(slots), 0, at), {0})
  {
    hide Tries, Compiled, Lower;
  }

  lemma StandsWhole(p: Program, k: Core, slots: nat)
    requires L.Bracketed(p, k, slots) && Linked(p)
    ensures Stands(p, k, slots, 1) && |p.code| == Size(k) + 3
    ensures p.code[0] == SaveInst(0) && p.code[1 + Size(k)] == SaveInst(1) && p.code[2 + Size(k)] == Blank(OpMatch)
  {
    hide Placed, L.CoreWithin, Linked;
  }

  lemma RunFromIsRest(p: Program, w: Text, slots: nat, at: nat)
    requires Linked(p) && |p.code| > 0 && at <= |w|
    ensures RunFrom(p, w, slots, at) == Rest(p, w, 0, Try(at, Blanks(slots), {}))
  {
    hide RunAll, Closure;
  }

  lemma RestSaves(p: Program, w: Text, pc: nat, t: Try, x: int)
    requires Linked(p) && pc + 1 < |p.code| && p.code[pc] == SaveInst(x) && t.at <= |w| && pc !in t.seen
    ensures Rest(p, w, pc, t) == Rest(p, w, pc + 1, Try(t.at, Put(t.caps, x, t.at), t.seen + {pc}))
  {
    hide Rest, Linked;
    RestNext(p, w, pc, t);
  }

  /** After the tree comes the end: the first try is taken. */
  lemma FirstEnds(p: Program, w: Text, k: Core, slots: nat, ts: seq<Try>, at: nat)
    requires Linked(p) && |p.code| == Size(k) + 3 && From(ts, w, at) && Passed(ts, at, {0}, 1, 1 + Size(k))
    requires p.code[1 + Size(k)] == SaveInst(1) && p.code[2 + Size(k)] == Blank(OpMatch)
    ensures FirstOf(p, w, 1 + Size(k), ts, at) == if ts == [] then None else Some(Put(ts[0].caps, 1, ts[0].at))
  {
    hide Rest, Linked, Size;
    if ts != [] {
      var t, q := ts[0], 1 + Size(k);
      RestSaves(p, w, q, t, 1);
      RestMatch(p, w, q + 1, Try(t.at, Put(t.caps, 1, t.at), t.seen + {q}));
    }
  }

  /** The first preferred match of the starts from `from` on. */
  ghost function FirstPreferred(n: Node, w: Text, slots: nat, from: nat): Option<Caps>
    decreases |w| + 1 - from
  {
    if from > |w| then None else OrElse(Preferred(n, w, slots, from), FirstPreferred(n, w, slots, from + 1))
  }

  /** So what the backtracker finds, and with it the search, is the first try at the leftmost start
   *  that has any. */
  lemma {:induction false} SearchIsPreferred(n: Node, groups: nat, w: Text, from: nat)
    requires GroupsWithin(n, groups) && Linked(Compiled(n)) && |Compiled(n).code| > 0
    ensures Search(Compiled(n), w, 2 * (groups + 1), from) == FirstPreferred(n, w, 2 * (groups + 1), from)
    decreases |w| + 1 - from
  {
    hide RunFrom, Compiled, Preferred, Linked;
    if from <= |w| {
      RunFromIsPreferred(n, groups, w, from);
      SearchIsPreferred(n, groups, w, from + 1);
    }
  }

  /** And every try is a match of the tree, with its captures. */
  lemma TryIsMatch(n: Node, w: Text, slots: nat, at: nat, m: nat)
    requires at <= |w| && m < |TriesAt(n, w, slots, at)|
    ensures var t := TriesAt(n, w, slots, at)[m]; Span(at, Put(Blanks(slots), 0, at), t.at, t.caps) in Denote(n, w)
  {
    hide *;
    TriesAtIs(n, w, slots, at);
    TryIsRun(Compiled(n), w, Lower(n, 0), 1, at, Put(Blanks(slots), 0, at), {0}, m);
    L.TableFits(n);
    LowerMeaning(Compiled(n), w, n, 0);
  }
}
