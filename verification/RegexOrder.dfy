/** The order of the matches where every round of a loop takes a byte: then no point comes up twice,
 *  and the preferred match is the first in the plain order of the tree. */
module RegexOrder {
  import opened Options
  import opened RegexTree
  import opened RegexProgram
  import opened RegexBacktrack
  import opened RegexCompiler
  import opened RegexPriority
  import L = RegexLayout

  datatype Way = Way(at: nat, caps: Caps)

  ghost predicate Onward(ws: seq<Way>, w: Text, i: nat) {
    forall k | 0 <= k < |ws| :: i <= ws[k].at <= |w|
  }

  /** The matches of k in w from i on, the preferred first; a round of a loop that takes no byte is
   *  none. */
  ghost function Ways(p: Program, w: Text, k: Core, i: nat, c: Caps): (ws: seq<Way>)
    requires i <= |w|
    ensures Onward(ws, w, i)
    decreases k, |w| - i, 1, 0
  {
    match k
    case Nil => [Way(i, c)]
    case Atom(ins) => AtomWays(p, w, ins, i, c)
    case Seq(a, b) => WaysEach(p, w, b, Ways(p, w, a, i, c), i)
    case Or(a, b) => Ways(p, w, a, i, c) + Ways(p, w, b, i, c)
    case Star(a, greedy) =>
      var more := WaysAgain(p, w, k, Ways(p, w, a, i, c), i);
      if greedy then more + [Way(i, c)] else [Way(i, c)] + more
    case Opt(a, greedy) =>
      var once := Ways(p, w, a, i, c);
      if greedy then once + [Way(i, c)] else [Way(i, c)] + once
  }

  ghost function AtomWays(p: Program, w: Text, ins: Inst, i: nat, c: Caps): (ws: seq<Way>)
    requires i <= |w|
    ensures Onward(ws, w, i)
  {
    if ins.op.OpSave? then [Way(i, Put(c, ins.x, i))]
    else if (ins.op.OpBol? && i == 0) || (ins.op.OpEol? && i == |w|) then [Way(i, c)]
    else if Consumes(p, ins, w, i) then [Way(i + 1, c)]
    else []
  }

  ghost function WaysEach(p: Program, w: Text, k: Core, ws: seq<Way>, i: nat): (us: seq<Way>)
    requires Onward(ws, w, i)
    ensures Onward(us, w, i)
    decreases k, |w| + 1, 0, |ws|
  {
    if ws == [] then [] else Ways(p, w, k, ws[0].at, ws[0].caps) + WaysEach(p, w, k, ws[1..], i)
  }

  ghost function WaysAgain(p: Program, w: Text, k: Core, ws: seq<Way>, i: nat): (us: seq<Way>)
    requires k.Star? && i <= |w| && Onward(ws, w, i)
    ensures Onward(us, w, i)
    decreases k, |w| - i, 0, |ws|
  {
    if ws == [] then []
    else
      (if ws[0].at > i then Ways(p, w, k, ws[0].at, ws[0].caps) else []) + WaysAgain(p, w, k, ws[1..], i)
  }

  /* -------------------------------------------------------- what takes a byte */

  /** k may match without taking a byte. */
  predicate MayBeEmpty(k: Core) {
    match k
    case Nil => true
    case Atom(ins) => IsEps(ins.op)
    case Seq(a, b) => MayBeEmpty(a) && MayBeEmpty(b)
    case Or(a, b) => MayBeEmpty(a) || MayBeEmpty(b)
    case Star(_, _) => true
    case Opt(_, _) => true
  }

  /** Every round of every loop in k takes a byte. */
  predicate RoundsTake(k: Core) {
    match k
    case Nil => true
    case Atom(_) => true
    case Seq(a, b) => RoundsTake(a) && RoundsTake(b)
    case Or(a, b) => RoundsTake(a) && RoundsTake(b)
    case Star(a, _) => RoundsTake(a) && !MayBeEmpty(a)
    case Opt(a, _) => RoundsTake(a)
  }

  /** The points of k that are passed before a byte is taken. */
  ghost function First(k: Core, pos: nat): (s: set<nat>)
    ensures forall q | q in s :: pos <= q < pos + Size(k)
  {
    match k
    case Nil => {}
    case Atom(_) => {pos}
    case Seq(a, b) => First(a, pos) + if MayBeEmpty(a) then First(b, pos + Size(a)) else {}
    case Or(a, b) =>
      {pos} + First(a, pos + 1) + (if MayBeEmpty(a) then {pos + 1 + Size(a)} else {}) + First(b, pos + 2 + Size(a))
    case Star(a, _) => {pos} + First(a, pos + 1)
    case Opt(a, _) => {pos} + First(a, pos + 1)
  }

  /** Those passed after the last byte is taken. */
  ghost function Final(k: Core, pos: nat): (s: set<nat>)
    ensures forall q | q in s :: pos <= q < pos + Size(k)
  {
    match k
    case Nil => {}
    case Atom(ins) => if IsEps(ins.op) then {pos} else {}
    case Seq(a, b) => Final(b, pos + Size(a)) + if MayBeEmpty(b) then Final(a, pos) else {}
    case Or(a, b) =>
      (if MayBeEmpty(k) then {pos} else {}) + Final(a, pos + 1) + {pos + 1 + Size(a)} + Final(b, pos + 2 + Size(a))
    case Star(a, _) => {pos} + Final(a, pos + 1) + {pos + 1 + Size(a)}
    case Opt(a, _) => {pos} + Final(a, pos + 1)
  }

  /** What takes a byte has no point that is passed both before and after. */
  lemma {:induction false} NoneBoth(k: Core, pos: nat)
    requires !MayBeEmpty(k)
    ensures First(k, pos) !! Final(k, pos)
  {
    hide Size;
    if k.Seq? {
      if !MayBeEmpty(k.first) { NoneBoth(k.first, pos); }
      if !MayBeEmpty(k.second) { NoneBoth(k.second, pos + Size(k.first)); }
      SeqNoneBoth(k, pos);
    } else if k.Or? {
      NoneBoth(k.first, pos + 1);
      NoneBoth(k.second, pos + 2 + Size(k.first));
      OrNoneBoth(k, pos);
    }
  }

  lemma SeqNoneBoth(k: Core, pos: nat)
    requires k.Seq? && !MayBeEmpty(k)
    requires !MayBeEmpty(k.first) ==> First(k.first, pos) !! Final(k.first, pos)
    requires !MayBeEmpty(k.second) ==> First(k.second, pos + Size(k.first)) !! Final(k.second, pos + Size(k.first))
    ensures First(k, pos) !! Final(k, pos)
  {
    hide Size;
  }

  lemma OrNoneBoth(k: Core, pos: nat)
    requires k.Or? && !MayBeEmpty(k) && First(k.first, pos + 1) !! Final(k.first, pos + 1)
    requires First(k.second, pos + 2 + Size(k.first)) !! Final(k.second, pos + 2 + Size(k.first))
    ensures First(k, pos) !! Final(k, pos)
  {
    hide Size;
  }

  /* -------------------------------------------------------- what a try remembers */

  /** A try that took no byte is of something that may be empty, and what it passed, or passed since
   *  its last byte, are points of `final`. */
  ghost predicate Trail(ts: seq<Try>, i: nat, seen: set<nat>, empty: bool, final: set<nat>) {
    forall k | 0 <= k < |ts| ::
      (ts[k].at == i ==> empty) && ts[k].seen <= (if ts[k].at == i then seen else {}) + final
  }

  lemma TrailJoin(x: seq<Try>, y: seq<Try>, i: nat, seen: set<nat>, empty: bool, final: set<nat>)
    requires Trail(x, i, seen, empty, final) && Trail(y, i, seen, empty, final)
    ensures Trail(x + y, i, seen, empty, final)
  {}

  lemma TrailWider(ts: seq<Try>, i: nat, pos: nat, seen: set<nat>, empty: bool, final: set<nat>, empty': bool,
                   final': set<nat>)
    requires Trail(ts, i, seen + {pos}, empty, final) && (empty ==> empty' && pos in final') && final <= final'
    ensures Trail(ts, i, seen, empty', final')
  {}

  lemma {:induction false} TriesTrail(p: Program, w: Text, k: Core, pos: nat, i: nat, c: Caps, seen: set<nat>)
    requires i <= |w|
    ensures Trail(Tries(p, w, k, pos, i, c, seen), i, seen, MayBeEmpty(k), Final(k, pos))
    decreases k, |w| - i, 2, 0
  {
    UnfoldTries(p, w, k, pos, i, c, seen);
    hide Tries, TriesEach, TriesAgain, PassBy, Size;
    if k.Nil? {
    } else if k.Seq? {
      TriesTrail(p, w, k.first, pos, i, c, seen);
      EachTrail(p, w, k, pos, Tries(p, w, k.first, pos, i, c, seen), i, seen);
    } else if pos !in seen {
      match k
      case Atom(ins) => AtomTrail(p, w, ins, pos, i, c, seen);
      case Or(_, _) => OrTrail(p, w, k, pos, i, c, seen);
      case Star(_, _) => StarTrail(p, w, k, pos, i, c, seen);
      case Opt(_, _) => OptTrail(p, w, k, pos, i, c, seen);
    }
  }

  lemma AtomTrail(p: Program, w: Text, ins: Inst, pos: nat, i: nat, c: Caps, seen: set<nat>)
    requires i <= |w|
    ensures Trail(AtomTries(p, w, ins, i, c, seen + {pos}), i, seen, IsEps(ins.op), Final(Atom(ins), pos))
  {}

  lemma {:induction false} EachTrail(p: Program, w: Text, k: Core, pos: nat, ts: seq<Try>, i: nat, seen: set<nat>)
    requires k.Seq? && From(ts, w, i) && Trail(ts, i, seen, MayBeEmpty(k.first), Final(k.first, pos))
    ensures Trail(TriesEach(p, w, k.second, pos + Size(k.first), ts, i), i, seen, MayBeEmpty(k), Final(k, pos))
    decreases k.second, |w| + 1, 0, |ts|
  {
    hide Size, Tries;
    if ts != [] {
      var t, q := ts[0], pos + Size(k.first);
      TriesTrail(p, w, k.second, q, t.at, t.caps, t.seen);
      EachTrail(p, w, k, pos, ts[1..], i, seen);
      TrailOn(Tries(p, w, k.second, q, t.at, t.caps, t.seen), k, pos, t, i, seen, w);
      TrailJoin(Tries(p, w, k.second, q, t.at, t.caps, t.seen), TriesEach(p, w, k.second, q, ts[1..], i), i, seen,
                MayBeEmpty(k), Final(k, pos));
    }
  }

  lemma TrailOn(us: seq<Try>, k: Core, pos: nat, t: Try, i: nat, seen: set<nat>, w: Text)
    requires k.Seq? && i <= t.at && From(us, w, t.at)
    requires Trail(us, t.at, t.seen, MayBeEmpty(k.second), Final(k.second, pos + Size(k.first)))
    requires Trail([t], i, seen, MayBeEmpty(k.first), Final(k.first, pos))
    ensures Trail(us, i, seen, MayBeEmpty(k), Final(k, pos))
  {
    hide Size;
    assert [t][0] == t;
  }

  lemma {:induction false} PassByTrail(ts: seq<Try>, q: nat, w: Text, i: nat, seen: set<nat>, empty: bool,
                                       final: set<nat>)
    requires From(ts, w, i) && Trail(ts, i, seen, empty, final) && q in final
    ensures Trail(PassBy(ts, q, w, i), i, seen, empty, final)
  {
    if ts != [] { PassByTrail(ts[1..], q, w, i, seen, empty, final); }
  }

  lemma TrailMore(ts: seq<Try>, i: nat, seen: set<nat>, empty: bool, final: set<nat>, final': set<nat>)
    requires Trail(ts, i, seen, empty, final) && final <= final'
    ensures Trail(ts, i, seen, empty, final')
  {}

  lemma OrTrail(p: Program, w: Text, k: Core, pos: nat, i: nat, c: Caps, seen: set<nat>)
    requires k.Or? && pos !in seen && i <= |w|
    ensures Trail(Tries(p, w, k, pos, i, c, seen), i, seen, MayBeEmpty(k), Final(k, pos))
    decreases k, |w| - i, 1, 0
  {
    hide *;
    UnfoldTries(p, w, k, pos, i, c, seen);
    OrFinal(k, pos);
    var past, q, final := seen + {pos}, pos + 1 + Size(k.first), Final(k, pos);
    var x, y := Tries(p, w, k.first, pos + 1, i, c, past), Tries(p, w, k.second, q + 1, i, c, past);
    TriesTrail(p, w, k.first, pos + 1, i, c, past);
    TriesTrail(p, w, k.second, q + 1, i, c, past);
    TrailMore(x, i, past, MayBeEmpty(k.first), Final(k.first, pos + 1), final);
    PassByTrail(x, q, w, i, past, MayBeEmpty(k.first), final);
    TrailWider(PassBy(x, q, w, i), i, pos, seen, MayBeEmpty(k.first), final, MayBeEmpty(k), final);
    TrailWider(y, i, pos, seen, MayBeEmpty(k.second), Final(k.second, q + 1), MayBeEmpty(k), final);
    TrailJoin(PassBy(x, q, w, i), y, i, seen, MayBeEmpty(k), final);
  }

  lemma OrFinal(k: Core, pos: nat)
    requires k.Or?
    ensures var final := Final(k, pos);
      Final(k.first, pos + 1) <= final && Final(k.second, pos + 2 + Size(k.first)) <= final
      && pos + 1 + Size(k.first) in final
      && (MayBeEmpty(k.first) || MayBeEmpty(k.second) ==> MayBeEmpty(k) && pos in final)
  {
    hide Size;
  }

  lemma StopTrail(i: nat, c: Caps, pos: nat, seen: set<nat>, final: set<nat>)
    requires pos in final
    ensures Trail([Try(i, c, seen + {pos})], i, seen, true, final)
  {}

  lemma OptTrail(p: Program, w: Text, k: Core, pos: nat, i: nat, c: Caps, seen: set<nat>)
    requires k.Opt? && pos !in seen && i <= |w|
    ensures Trail(Tries(p, w, k, pos, i, c, seen), i, seen, MayBeEmpty(k), Final(k, pos))
    decreases k, |w| - i, 1, 0
  {
    UnfoldTries(p, w, k, pos, i, c, seen);
    var past, final, stop := seen + {pos}, Final(k, pos), [Try(i, c, seen + {pos})];
    hide Tries, Size;
    var x := Tries(p, w, k.inner, pos + 1, i, c, past);
    TriesTrail(p, w, k.inner, pos + 1, i, c, past);
    TrailWider(x, i, pos, seen, MayBeEmpty(k.inner), Final(k.inner, pos + 1), true, final);
    StopTrail(i, c, pos, seen, final);
    TrailJoin(x, stop, i, seen, true, final);
    TrailJoin(stop, x, i, seen, true, final);
  }

  lemma StarTrail(p: Program, w: Text, k: Core, pos: nat, i: nat, c: Caps, seen: set<nat>)
    requires k.Star? && pos !in seen && i <= |w|
    ensures Trail(Tries(p, w, k, pos, i, c, seen), i, seen, MayBeEmpty(k), Final(k, pos))
    decreases k, |w| - i, 1, 0
  {
    UnfoldTries(p, w, k, pos, i, c, seen);
    var past, final, stop := seen + {pos}, Final(k, pos), [Try(i, c, seen + {pos})];
    hide Tries, TriesAgain, Size;
    var x := Tries(p, w, k.inner, pos + 1, i, c, past);
    TriesTrail(p, w, k.inner, pos + 1, i, c, past);
    AgainTrail(p, w, k, pos, x, i, past);
    var more := TriesAgain(p, w, k, pos, x, i);
    TrailWider(more, i, pos, seen, true, final, true, final);
    StopTrail(i, c, pos, seen, final);
    TrailJoin(more, stop, i, seen, true, final);
    TrailJoin(stop, more, i, seen, true, final);
  }

  lemma {:induction false} AgainTrail(p: Program, w: Text, k: Core, pos: nat, ts: seq<Try>, i: nat, seen: set<nat>)
    requires k.Star? && i <= |w| && From(ts, w, i)
    requires Trail(ts, i, seen, MayBeEmpty(k.inner), Final(k.inner, pos + 1))
    ensures Trail(TriesAgain(p, w, k, pos, ts, i), i, seen, true, Final(k, pos))
    decreases k, |w| - i, 0, |ts|
  {
    hide Tries, Size;
    if ts != [] {
      var t, back := ts[0], pos + 1 + Size(k.inner);
      AgainTrail(p, w, k, pos, ts[1..], i, seen);
      if t.at > i && back !in t.seen {
        var x := Tries(p, w, k, pos, t.at, t.caps, t.seen + {back});
        TriesTrail(p, w, k, pos, t.at, t.caps, t.seen + {back});
        TrailJoin(x, TriesAgain(p, w, k, pos, ts[1..], i), i, seen, true, Final(k, pos));
      }
    }
  }

  /* -------------------------------------------------------- the tries in plain order */

  ghost function Plain(ts: seq<Try>): (ws: seq<Way>)
    ensures |ws| == |ts| && forall k | 0 <= k < |ts| :: ws[k] == Way(ts[k].at, ts[k].caps)
  {
    if ts == [] then [] else [Way(ts[0].at, ts[0].caps)] + Plain(ts[1..])
  }

  lemma PlainJoin(x: seq<Try>, y: seq<Try>)
    ensures Plain(x + y) == Plain(x) + Plain(y)
  {}

  lemma PlainStep(ts: seq<Try>)
    requires ts != []
    ensures Plain(ts)[1..] == Plain(ts[1..])
  {}

  /** None of the points that come next was passed. */
  ghost predicate Clear(ts: seq<Try>, s: set<nat>) {
    forall k | 0 <= k < |ts| :: ts[k].seen !! s
  }

  /** Where every round takes a byte, and no point before the first byte was passed, no try is lost:
   *  the tries are the matches in plain order. */
  lemma {:induction false} TriesAreWays(p: Program, w: Text, k: Core, pos: nat, i: nat, c: Caps, seen: set<nat>)
    requires i <= |w| && RoundsTake(k) && seen !! First(k, pos)
    ensures Plain(Tries(p, w, k, pos, i, c, seen)) == Ways(p, w, k, i, c)
    decreases k, |w| - i, 2, 0
  {
    UnfoldTries(p, w, k, pos, i, c, seen);
    hide Tries, TriesEach, TriesAgain, PassBy, Size, WaysEach, WaysAgain, Plain;
    match k
    case Nil => PlainOne(i, c, seen);
    case Atom(ins) => AtomAreWays(p, w, ins, i, c, seen + {pos});
    case Seq(_, _) => SeqAreWays(p, w, k, pos, i, c, seen);
    case Or(_, _) => OrAreWays(p, w, k, pos, i, c, seen);
    case Star(_, _) => StarAreWays(p, w, k, pos, i, c, seen);
    case Opt(_, _) => OptAreWays(p, w, k, pos, i, c, seen);
  }

  /** The plain order of a core, from that of its parts, which are clear of what was passed if it is. */
  lemma UnfoldWays(p: Program, w: Text, k: Core, pos: nat, i: nat, c: Caps, seen: set<nat>)
    requires i <= |w| && RoundsTake(k) && seen !! First(k, pos)
    ensures k.Seq? ==> RoundsTake(k.first) && RoundsTake(k.second) && seen !! First(k.first, pos)
    ensures k.Seq? ==> Ways(p, w, k, i, c) == WaysEach(p, w, k.second, Ways(p, w, k.first, i, c), i)
    ensures k.Or? || k.Star? || k.Opt? ==> pos !in seen
    ensures k.Or? ==> RoundsTake(k.first) && RoundsTake(k.second) && (seen + {pos}) !! First(k.first, pos + 1)
    ensures k.Or? ==> (seen + {pos}) !! First(k.second, pos + 2 + Size(k.first))
    ensures k.Or? ==> Ways(p, w, k, i, c) == Ways(p, w, k.first, i, c) + Ways(p, w, k.second, i, c)
    ensures k.Star? || k.Opt? ==> RoundsTake(k.inner) && (seen + {pos}) !! First(k.inner, pos + 1)
    ensures k.Star? ==>
              var more := WaysAgain(p, w, k, Ways(p, w, k.inner, i, c), i);
              Ways(p, w, k, i, c) == if k.greedy then more + [Way(i, c)] else [Way(i, c)] + more
    ensures k.Opt? ==>
              var once := Ways(p, w, k.inner, i, c);
              Ways(p, w, k, i, c) == if k.greedy then once + [Way(i, c)] else [Way(i, c)] + once
  {
    hide Size, WaysEach, WaysAgain;
  }

  lemma PlainOne(i: nat, c: Caps, seen: set<nat>)
    ensures Plain([Try(i, c, seen)]) == [Way(i, c)]
  {}

  lemma AtomAreWays(p: Program, w: Text, ins: Inst, i: nat, c: Caps, past: set<nat>)
    requires i <= |w|
    ensures Plain(AtomTries(p, w, ins, i, c, past)) == AtomWays(p, w, ins, i, c)
  {}

  lemma SeqAreWays(p: Program, w: Text, k: Core, pos: nat, i: nat, c: Caps, seen: set<nat>)
    requires k.Seq? && i <= |w| && RoundsTake(k) && seen !! First(k, pos)
    ensures Plain(Tries(p, w, k, pos, i, c, seen)) == Ways(p, w, k, i, c)
    decreases k, |w| - i, 1, 0
  {
    hide *;
    UnfoldTries(p, w, k, pos, i, c, seen);
    UnfoldWays(p, w, k, pos, i, c, seen);
    var x := Tries(p, w, k.first, pos, i, c, seen);
    TriesAreWays(p, w, k.first, pos, i, c, seen);
    TriesTrail(p, w, k.first, pos, i, c, seen);
    SeqClear(x, k, pos, i, seen);
    EachAreWays(p, w, k.second, pos + Size(k.first), x, i);
  }

  lemma SeqClear(ts: seq<Try>, k: Core, pos: nat, i: nat, seen: set<nat>)
    requires k.Seq? && seen !! First(k, pos) && Trail(ts, i, seen, MayBeEmpty(k.first), Final(k.first, pos))
    ensures Clear(ts, First(k.second, pos + Size(k.first)))
  {
    hide Size;
  }

  lemma {:induction false} EachAreWays(p: Program, w: Text, k: Core, pos: nat, ts: seq<Try>, i: nat)
    requires From(ts, w, i) && RoundsTake(k) && Clear(ts, First(k, pos))
    ensures Onward(Plain(ts), w, i) && Plain(TriesEach(p, w, k, pos, ts, i)) == WaysEach(p, w, k, Plain(ts), i)
    decreases k, |w| + 1, 0, |ts|
  {
    hide Tries, Ways, Size;
    if ts != [] {
      var t := ts[0];
      TriesAreWays(p, w, k, pos, t.at, t.caps, t.seen);
      EachAreWays(p, w, k, pos, ts[1..], i);
      PlainStep(ts);
      PlainJoin(Tries(p, w, k, pos, t.at, t.caps, t.seen), TriesEach(p, w, k, pos, ts[1..], i));
    }
  }

  lemma {:induction false} PassByPlain(ts: seq<Try>, q: nat, w: Text, i: nat)
    requires From(ts, w, i) && Clear(ts, {q})
    ensures Plain(PassBy(ts, q, w, i)) == Plain(ts)
  {
    if ts != [] {
      PassByPlain(ts[1..], q, w, i);
      assert q !in ts[0].seen by { assert q in {q}; }
      var first := [ts[0].(seen := ts[0].seen + {q})];
      PlainJoin(first, PassBy(ts[1..], q, w, i));
      PlainStep(ts);
    }
  }

  lemma OrAreWays(p: Program, w: Text, k: Core, pos: nat, i: nat, c: Caps, seen: set<nat>)
    requires k.Or? && i <= |w| && RoundsTake(k) && seen !! First(k, pos)
    ensures Plain(Tries(p, w, k, pos, i, c, seen)) == Ways(p, w, k, i, c)
    decreases k, |w| - i, 1, 0
  {
    hide *;
    UnfoldTries(p, w, k, pos, i, c, seen);
    UnfoldWays(p, w, k, pos, i, c, seen);
    var past, q := seen + {pos}, pos + 1 + Size(k.first);
    var x, y := Tries(p, w, k.first, pos + 1, i, c, past), Tries(p, w, k.second, q + 1, i, c, past);
    TriesAreWays(p, w, k.first, pos + 1, i, c, past);
    TriesAreWays(p, w, k.second, q + 1, i, c, past);
    TriesTrail(p, w, k.first, pos + 1, i, c, past);
    OrClear(x, k, pos, i, seen);
    PassByPlain(x, q, w, i);
    PlainJoin(PassBy(x, q, w, i), y);
  }

  lemma OrClear(ts: seq<Try>, k: Core, pos: nat, i: nat, seen: set<nat>)
    requires k.Or? && seen !! First(k, pos)
    requires Trail(ts, i, seen + {pos}, MayBeEmpty(k.first), Final(k.first, pos + 1))
    ensures Clear(ts, {pos + 1 + Size(k.first)})
  {
    hide Size;
  }

  lemma OptAreWays(p: Program, w: Text, k: Core, pos: nat, i: nat, c: Caps, seen: set<nat>)
    requires k.Opt? && i <= |w| && RoundsTake(k) && seen !! First(k, pos)
    ensures Plain(Tries(p, w, k, pos, i, c, seen)) == Ways(p, w, k, i, c)
    decreases k, |w| - i, 1, 0
  {
    hide *;
    UnfoldTries(p, w, k, pos, i, c, seen);
    UnfoldWays(p, w, k, pos, i, c, seen);
    var x, stop := Tries(p, w, k.inner, pos + 1, i, c, seen + {pos}), [Try(i, c, seen + {pos})];
    TriesAreWays(p, w, k.inner, pos + 1, i, c, seen + {pos});
    PlainOne(i, c, seen + {pos});
    PlainJoin(x, stop);
    PlainJoin(stop, x);
  }

  lemma StarAreWays(p: Program, w: Text, k: Core, pos: nat, i: nat, c: Caps, seen: set<nat>)
    requires k.Star? && i <= |w| && RoundsTake(k) && seen !! First(k, pos)
    ensures Plain(Tries(p, w, k, pos, i, c, seen)) == Ways(p, w, k, i, c)
    decreases k, |w| - i, 1, 0
  {
    hide *;
    UnfoldTries(p, w, k, pos, i, c, seen);
    UnfoldWays(p, w, k, pos, i, c, seen);
    var x, stop := Tries(p, w, k.inner, pos + 1, i, c, seen + {pos}), [Try(i, c, seen + {pos})];
    TriesAreWays(p, w, k.inner, pos + 1, i, c, seen + {pos});
    TriesTrail(p, w, k.inner, pos + 1, i, c, seen + {pos});
    AgainAreWays(p, w, k, pos, x, i, seen + {pos});
    var more := TriesAgain(p, w, k, pos, x, i);
    PlainOne(i, c, seen + {pos});
    PlainJoin(more, stop);
    PlainJoin(stop, more);
  }

  /** The points passed since a round's last byte are none of those before the next one's first. */
  lemma RoundClear(t: Try, k: Core, pos: nat, i: nat, seen: set<nat>)
    requires k.Star? && RoundsTake(k) && i <= t.at
    requires Trail([t], i, seen, MayBeEmpty(k.inner), Final(k.inner, pos + 1))
    ensures var back := pos + 1 + Size(k.inner);
      t.at > i && back !in t.seen && (t.seen + {back}) !! First(k, pos)
  {
    hide Size;
    assert [t][0] == t;
    NoneBoth(k.inner, pos + 1);
  }

  lemma {:induction false} AgainAreWays(p: Program, w: Text, k: Core, pos: nat, ts: seq<Try>, i: nat, seen: set<nat>)
    requires k.Star? && i <= |w| && From(ts, w, i) && RoundsTake(k)
    requires Trail(ts, i, seen, MayBeEmpty(k.inner), Final(k.inner, pos + 1))
    ensures Onward(Plain(ts), w, i) && Plain(TriesAgain(p, w, k, pos, ts, i)) == WaysAgain(p, w, k, Plain(ts), i)
    decreases k, |w| - i, 0, |ts|
  {
    hide Tries, Ways, Size, RoundsTake, First, Final, MayBeEmpty;
    if ts != [] {
      var t, back := ts[0], pos + 1 + Size(k.inner);
      RoundClear(t, k, pos, i, seen);
      TriesAreWays(p, w, k, pos, t.at, t.caps, t.seen + {back});
      AgainAreWays(p, w, k, pos, ts[1..], i, seen);
      PlainStep(ts);
      PlainJoin(Tries(p, w, k, pos, t.at, t.caps, t.seen + {back}), TriesAgain(p, w, k, pos, ts[1..], i));
    }
  }

  /* -------------------------------------------------------- the plain order has every match */

  lemma {:induction false} RunsOnward(p: Program, w: Text, k: Core, s: Span)
    requires s in Runs(p, w, k) && s.i <= |w|
    ensures s.i <= s.j <= |w| && (!MayBeEmpty(k) ==> s.i < s.j)
    decreases k, 0
  {
    match k
    case Nil =>
    case Atom(_) =>
    case Seq(a, b) =>
      var m: nat, e: Caps :| Joins(Runs(p, w, a), Runs(p, w, b), s, m, e);
      RunsOnward(p, w, a, Span(s.i, s.c, m, e));
      RunsOnward(p, w, b, Span(m, e, s.j, s.d));
    case Or(a, b) =>
      if s in Runs(p, w, a) { RunsOnward(p, w, a, s); } else { RunsOnward(p, w, b, s); }
    case Star(a, _) =>
      var n: nat :| s in Power(Runs(p, w, a), n);
      RoundsOnward(p, w, a, n, s);
    case Opt(a, _) =>
      if s in Runs(p, w, a) { RunsOnward(p, w, a, s); }
  }

  lemma {:induction false} RoundsOnward(p: Program, w: Text, a: Core, n: nat, s: Span)
    requires s in Power(Runs(p, w, a), n) && s.i <= |w|
    ensures s.i <= s.j <= |w|
    decreases a, n + 1
  {
    hide Runs, Power;
    if n == 0 {
      L.PowerNone(Runs(p, w, a), s);
    } else {
      var m, e := L.PowerFirst(Runs(p, w, a), n, s);
      RunsOnward(p, w, a, Span(s.i, s.c, m, e));
      RoundsOnward(p, w, a, n - 1, Span(m, e, s.j, s.d));
    }
  }

  /** Every match is one of the ways. */
  lemma {:induction false} WaysComplete(p: Program, w: Text, k: Core, s: Span)
    requires s in Runs(p, w, k) && s.i <= |w| && RoundsTake(k)
    ensures Way(s.j, s.d) in Ways(p, w, k, s.i, s.c)
    decreases k, 0
  {
    match k
    case Nil =>
    case Atom(_) =>
    case Seq(a, b) =>
      var m: nat, e: Caps :| Joins(Runs(p, w, a), Runs(p, w, b), s, m, e);
      WaysComplete(p, w, a, Span(s.i, s.c, m, e));
      RunsOnward(p, w, a, Span(s.i, s.c, m, e));
      WaysComplete(p, w, b, Span(m, e, s.j, s.d));
      EachHas(p, w, b, Ways(p, w, a, s.i, s.c), s.i, Way(m, e), Way(s.j, s.d));
    case Or(a, b) =>
      if s in Runs(p, w, a) { WaysComplete(p, w, a, s); } else { WaysComplete(p, w, b, s); }
    case Star(a, _) =>
      var n: nat :| s in Power(Runs(p, w, a), n);
      RoundsComplete(p, w, k, n, s);
    case Opt(a, _) =>
      if s in Runs(p, w, a) { WaysComplete(p, w, a, s); }
  }

  lemma {:induction false} RoundsComplete(p: Program, w: Text, k: Core, n: nat, s: Span)
    requires k.Star? && s in Power(Runs(p, w, k.inner), n) && s.i <= |w| && RoundsTake(k)
    ensures Way(s.j, s.d) in Ways(p, w, k, s.i, s.c)
    decreases k.inner, n + 1
  {
    var a := k.inner;
    hide Runs, Power, WaysAgain;
    if n == 0 {
      L.PowerNone(Runs(p, w, a), s);
    } else {
      var m, e := L.PowerFirst(Runs(p, w, a), n, s);
      RunsOnward(p, w, a, Span(s.i, s.c, m, e));
      WaysComplete(p, w, a, Span(s.i, s.c, m, e));
      RoundsComplete(p, w, k, n - 1, Span(m, e, s.j, s.d));
      AgainHas(p, w, k, Ways(p, w, a, s.i, s.c), s.i, Way(m, e), Way(s.j, s.d));
    }
  }

  lemma {:induction false} EachHas(p: Program, w: Text, k: Core, ws: seq<Way>, i: nat, x: Way, y: Way)
    requires Onward(ws, w, i) && x in ws && x.at <= |w| && y in Ways(p, w, k, x.at, x.caps)
    ensures y in WaysEach(p, w, k, ws, i)
  {
    hide Ways;
    if ws[0] != x { EachHas(p, w, k, ws[1..], i, x, y); }
  }

  lemma {:induction false} AgainHas(p: Program, w: Text, k: Core, ws: seq<Way>, i: nat, x: Way, y: Way)
    requires k.Star? && i < x.at <= |w| && Onward(ws, w, i) && x in ws && y in Ways(p, w, k, x.at, x.caps)
    ensures y in WaysAgain(p, w, k, ws, i)
  {
    hide Ways;
    if ws[0] != x { AgainHas(p, w, k, ws[1..], i, x, y); }
  }

  /* -------------------------------------------------------- the whole pattern */

  /** The matches of a pattern that start at `at`, in plain order. */
  ghost function WaysAt(n: Node, w: Text, slots: nat, at: nat): seq<Way>
    requires at <= |w|
  {
    Ways(Compiled(n), w, Lower(n, 0), at, Put(Blanks(slots), 0, at))
  }

  /** Every round of every loop of the pattern takes a byte. */
  predicate LoopsTake(n: Node) {
    RoundsTake(Lower(n, 0))
  }

  /** They are exactly the tree's. */
  lemma WaysAreMatches(n: Node, w: Text, slots: nat, at: nat, j: nat, d: Caps)
    requires at <= |w| && LoopsTake(n)
    ensures Way(j, d) in WaysAt(n, w, slots, at) <==> Span(at, Put(Blanks(slots), 0, at), j, d) in Denote(n, w)
  {
    hide Tries, Ways, Runs, Denote, Compiled, Lower, Plain, First, RoundsTake;
    var c := Put(Blanks(slots), 0, at);
    L.TableFits(n);
    LowerMeaning(Compiled(n), w, n, 0);
    TriesAreWays(Compiled(n), w, Lower(n, 0), 1, at, c, {0});
    if Way(j, d) in WaysAt(n, w, slots, at) {
      var m :| 0 <= m < |WaysAt(n, w, slots, at)| && WaysAt(n, w, slots, at)[m] == Way(j, d);
      TryIsRun(Compiled(n), w, Lower(n, 0), 1, at, c, {0}, m);
    }
    if Span(at, c, j, d) in Denote(n, w) { WaysComplete(Compiled(n), w, Lower(n, 0), Span(at, c, j, d)); }
  }

  /** The first match in plain order of the starts from `from` on. */
  ghost function FirstInOrder(n: Node, w: Text, slots: nat, from: nat): Option<Caps>
    decreases |w| + 1 - from
  {
    if from > |w| then None
    else
      var ws := WaysAt(n, w, slots, from);
      if ws == [] then FirstInOrder(n, w, slots, from + 1) else Some(Put(ws[0].caps, 1, ws[0].at))
  }

  lemma {:induction false} PreferredInOrder(n: Node, w: Text, slots: nat, from: nat)
    requires LoopsTake(n)
    ensures FirstPreferred(n, w, slots, from) == FirstInOrder(n, w, slots, from)
    decreases |w| + 1 - from
  {
    hide Tries, Ways, Compiled, Lower, First, RoundsTake;
    if from <= |w| {
      TriesAreWays(Compiled(n), w, Lower(n, 0), 1, from, Put(Blanks(slots), 0, from), {0});
      PreferredInOrder(n, w, slots, from + 1);
    }
  }

  /* -------------------------------------------------------- where a round may be empty */

  /** (a*?)* */
  function Lazy(): Node { Rep(Rep(Char('a' as int), 0, -1, false), 0, -1, true) }

  function TwoBytes(): Text { ['a' as int, 'a' as int] }

  function Letter(): Core { Atom(CharInst('a' as int)) }

  function InnerLoop(): Core { Star(Letter(), false) }

  function OuterLoop(): Core { Star(Seq(Nil, InnerLoop()), true) }

  lemma LazyCore()
    ensures Lower(Lazy(), 0) == Seq(Nil, OuterLoop()) && !LoopsTake(Lazy())
  {}

  lemma LoopShapes()
    ensures InnerLoop() == Star(Letter(), false) && OuterLoop() == Star(Seq(Nil, InnerLoop()), true)
    ensures Size(Letter()) == 1 && Size(Seq(Nil, InnerLoop())) == 3 && |TwoBytes()| == 2
  {}

  lemma LetterTries(p: Program, i: nat, c: Caps, seen: set<nat>)
    requires i <= 2 && 3 !in seen
    ensures Tries(p, TwoBytes(), Letter(), 3, i, c, seen) == if i < 2 then [Try(i + 1, c, {})] else []
    ensures Ways(p, TwoBytes(), Letter(), i, c) == if i < 2 then [Way(i + 1, c)] else []
  {}

  lemma AgainStep(p: Program, w: Text, k: Core, pos: nat, ts: seq<Try>, i: nat)
    requires k.Star? && i <= |w| && From(ts, w, i)
    ensures ts == [] ==> TriesAgain(p, w, k, pos, ts, i) == []
    ensures ts != [] ==>
              var t, back := ts[0], pos + 1 + Size(k.inner);
              TriesAgain(p, w, k, pos, ts, i)
              == (if t.at > i && back !in t.seen then Tries(p, w, k, pos, t.at, t.caps, t.seen + {back}) else [])
                 + TriesAgain(p, w, k, pos, ts[1..], i)
  {
    hide Tries, Size;
  }

  lemma WaysAgainStep(p: Program, w: Text, k: Core, ws: seq<Way>, i: nat)
    requires k.Star? && i <= |w| && Onward(ws, w, i)
    ensures ws == [] ==> WaysAgain(p, w, k, ws, i) == []
    ensures ws != [] ==>
              WaysAgain(p, w, k, ws, i)
              == (if ws[0].at > i then Ways(p, w, k, ws[0].at, ws[0].caps) else []) + WaysAgain(p, w, k, ws[1..], i)
  {
    hide Ways;
  }

  lemma StarWays(p: Program, w: Text, k: Core, i: nat, c: Caps)
    requires k.Star? && i <= |w|
    ensures var more := WaysAgain(p, w, k, Ways(p, w, k.inner, i, c), i);
      Ways(p, w, k, i, c) == if k.greedy then more + [Way(i, c)] else [Way(i, c)] + more
  {
    hide WaysAgain;
  }

  lemma LazySeq(p: Program, w: Text, k: Core, pos: nat, i: nat, c: Caps, seen: set<nat>)
    requires i <= |w|
    ensures Tries(p, w, Seq(Nil, k), pos, i, c, seen) == Tries(p, w, k, pos, i, c, seen)
    ensures Ways(p, w, Seq(Nil, k), i, c) == Ways(p, w, k, i, c)
  {
    hide *;
    UnfoldTries(p, w, Seq(Nil, k), pos, i, c, seen);
    UnfoldTries(p, w, Nil, pos, i, c, seen);
    SeqParts(p, w, k, i, c);
    EachTriesOne(p, w, k, pos, Try(i, c, seen), i);
    EachWaysOne(p, w, k, Way(i, c), i);
  }

  lemma SeqParts(p: Program, w: Text, k: Core, i: nat, c: Caps)
    requires i <= |w|
    ensures Ways(p, w, Seq(Nil, k), i, c) == WaysEach(p, w, k, [Way(i, c)], i)
    ensures Seq(Nil, k).first == Nil && Seq(Nil, k).second == k && Size(Nil) == 0
  {
    hide WaysEach;
  }

  lemma EachTriesOne(p: Program, w: Text, k: Core, pos: nat, t: Try, i: nat)
    requires i <= t.at <= |w|
    ensures From([t], w, i) && TriesEach(p, w, k, pos, [t], i) == Tries(p, w, k, pos, t.at, t.caps, t.seen)
  {
    hide Tries;
    assert [t][1..] == [] && TriesEach(p, w, k, pos, [], i) == [];
  }

  lemma EachWaysOne(p: Program, w: Text, k: Core, v: Way, i: nat)
    requires i <= v.at <= |w|
    ensures Onward([v], w, i) && WaysEach(p, w, k, [v], i) == Ways(p, w, k, v.at, v.caps)
  {
    hide Ways;
    assert [v][1..] == [] && WaysEach(p, w, k, [], i) == [];
  }

  /** The inner loop: no byte first, and then one. */
  lemma InnerTries(p: Program, c: Caps, seen: set<nat>)
    requires 2 !in seen && 3 !in seen
    ensures var x := Tries(p, TwoBytes(), InnerLoop(), 2, 0, c, seen);
      |x| >= 2 && x[0].at == 0 && x[1] == Try(1, c, {4, 2})
  {
    hide *;
    LoopShapes();
    var w, k, t := TwoBytes(), InnerLoop(), Try(1, c, {});
    UnfoldTries(p, w, k, 2, 0, c, seen);
    LetterTries(p, 0, c, seen + {2});
    AgainStep(p, w, k, 2, [t], 0);
    UnfoldTries(p, w, k, 2, 1, c, {} + {4});
    assert {} + {4} + {2} == {4, 2};
  }

  /** After that byte the outer loop comes by the inner one's start again, and only its end is left. */
  lemma OuterEnds(p: Program, c: Caps)
    ensures var x := Tries(p, TwoBytes(), OuterLoop(), 1, 1, c, {4, 2} + {5}); x != [] && x[0].at == 1
  {
    hide *;
    LoopShapes();
    var w, k, seen := TwoBytes(), OuterLoop(), {4, 2} + {5};
    UnfoldTries(p, w, k, 1, 1, c, seen);
    LazySeq(p, w, InnerLoop(), 2, 1, c, seen + {1});
    UnfoldTries(p, w, InnerLoop(), 2, 1, c, seen + {1});
    AgainStep(p, w, k, 1, [], 1);
  }

  lemma OuterTries(p: Program, c: Caps)
    ensures var x := Tries(p, TwoBytes(), OuterLoop(), 1, 0, c, {0}); x != [] && x[0].at == 1
  {
    hide *;
    LoopShapes();
    var w, k := TwoBytes(), OuterLoop();
    UnfoldTries(p, w, k, 1, 0, c, {0});
    LazySeq(p, w, InnerLoop(), 2, 0, c, {0} + {1});
    InnerTries(p, c, {0} + {1});
    var x := Tries(p, w, InnerLoop(), 2, 0, c, {0} + {1});
    OuterEnds(p, c);
    AgainStep(p, w, k, 1, x, 0);
    FromRest(x, w, 0);
    AgainStep(p, w, k, 1, x[1..], 0);
    assert x[1..][0] == Try(1, c, {4, 2});
  }

  lemma FromRest(ts: seq<Try>, w: Text, i: nat)
    requires From(ts, w, i) && ts != []
    ensures From(ts[1..], w, i)
  {}

  lemma OnwardRest(ws: seq<Way>, w: Text, i: nat)
    requires Onward(ws, w, i) && ws != []
    ensures Onward(ws[1..], w, i)
  {}

  /** In plain order the outer loop takes both bytes. */
  lemma {:induction false} InnerWays(p: Program, i: nat, c: Caps)
    requires i <= 2
    ensures var x := Ways(p, TwoBytes(), InnerLoop(), i, c);
      x != [] && x[0] == Way(i, c) && (i < 2 ==> |x| >= 2 && x[1] == Way(i + 1, c)) && (i == 2 ==> x == [Way(i, c)])
    decreases 2 - i
  {
    hide *;
    LoopShapes();
    var w, k := TwoBytes(), InnerLoop();
    LetterTries(p, i, c, {});
    StarWays(p, w, k, i, c);
    if i < 2 {
      InnerWays(p, i + 1, c);
      var v := Way(i + 1, c);
      OnwardOne(v, w, i);
      WaysAgainStep(p, w, k, [v], i);
    } else {
      WaysAgainStep(p, w, k, [], i);
    }
  }

  lemma OnwardOne(v: Way, w: Text, i: nat)
    requires i <= v.at <= |w|
    ensures Onward([v], w, i)
  {}

  lemma {:induction false} OuterWays(p: Program, i: nat, c: Caps)
    requires i <= 2
    ensures var x := Ways(p, TwoBytes(), OuterLoop(), i, c); x != [] && x[0].at == 2
    decreases 2 - i
  {
    hide *;
    LoopShapes();
    var w, k := TwoBytes(), OuterLoop();
    LazySeq(p, w, InnerLoop(), 2, i, c, {});
    InnerWays(p, i, c);
    var x := Ways(p, w, InnerLoop(), i, c);
    StarWays(p, w, k, i, c);
    WaysAgainStep(p, w, k, x, i);
    OnwardRest(x, w, i);
    WaysAgainStep(p, w, k, x[1..], i);
    if i < 2 {
      OuterWays(p, i + 1, c);
      assert x[1..][0] == Way(i + 1, c);
    }
  }

  /** A pattern for which the search's choice is not the first in plain order: of two bytes, (a*?)*
   *  finds one. */
  lemma EmptyRoundsDiffer()
    ensures !LoopsTake(Lazy())
    ensures TriesAt(Lazy(), TwoBytes(), 2, 0) != [] && TriesAt(Lazy(), TwoBytes(), 2, 0)[0].at == 1
    ensures WaysAt(Lazy(), TwoBytes(), 2, 0) != [] && WaysAt(Lazy(), TwoBytes(), 2, 0)[0].at == 2
  {
    var p, w, c := Compiled(Lazy()), TwoBytes(), Put(Blanks(2), 0, 0);
    hide *;
    LoopShapes();
    LazyCore();
    LazySeq(p, w, OuterLoop(), 1, 0, c, {0});
    OuterTries(p, c);
    OuterWays(p, 0, c);
    TriesAtIs(Lazy(), w, 2, 0);
    WaysAtIs(Lazy(), w, 2, 0);
  }

  lemma WaysAtIs(n: Node, w: Text, slots: nat, at: nat)
    requires at <= |w|
    ensures WaysAt(n, w, slots, at) == Ways(Compiled(n), w, Lower(n, 0), at, Put(Blanks(slots), 0, at))
  {
    hide Ways, Compiled, Lower;
  }
}
