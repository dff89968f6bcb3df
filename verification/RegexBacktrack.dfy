/** The reference executor: a plain prioritised backtracker with no memory of
 *  what it tried. An instruction already on the current run of non-consuming
 *  steps is not entered again; nothing else is ever skipped. */
module RegexBacktrack {
  import opened Options
  import opened RegexTree
  import opened RegexProgram

  function OrElse<T>(a: Option<T>, b: Option<T>): Option<T> { if a.Some? then a else b }

  datatype Thread = Thread(pc: nat, caps: Caps)

  /** Every step out of an instruction leads to an instruction. */
  ghost predicate Linked(p: Program) {
    forall pc: nat :: pc < |p.code| ==> LinkedInst(p.code[pc], pc, |p.code|)
  }

  ghost predicate LinkedInst(ins: Inst, pc: nat, n: nat) {
    match ins.op
    case OpJmp => 0 <= ins.x < n
    case OpSplit => 0 <= ins.x < n && 0 <= ins.y < n
    case OpMatch => true
    case _ => pc + 1 < n
  }

  predicate IsEps(op: Op) {
    op.OpJmp? || op.OpSplit? || op.OpSave? || op.OpBol? || op.OpEol?
  }

  /** Where a non-consuming instruction leads at position `at`, preferred first. */
  ghost function Next(p: Program, w: Text, pc: nat, at: nat): (r: seq<nat>)
    requires Linked(p) && pc < |p.code|
    ensures Within(p, r)
  {
    var ins := p.code[pc];
    assert LinkedInst(ins, pc, |p.code|);
    match ins.op
    case OpJmp => [ins.x]
    case OpSplit => [ins.x, ins.y]
    case OpSave => [pc + 1]
    case OpBol => if at == 0 then [pc + 1] else []
    case OpEol => if at == |w| then [pc + 1] else []
    case _ => []
  }

  ghost function Saved(p: Program, pc: nat, at: nat, caps: Caps): Caps
    requires pc < |p.code|
  {
    if p.code[pc].op.OpSave? then Put(caps, p.code[pc].x, at) else caps
  }

  ghost predicate Within(p: Program, pcs: seq<nat>) { forall i :: 0 <= i < |pcs| ==> pcs[i] < |p.code| }

  ghost function Below(n: nat): (r: set<nat>)
    ensures forall q: nat :: q in r <==> q < n
    ensures |r| == n
  {
    if n == 0 then {} else Below(n - 1) + {n - 1}
  }

  ghost function Pcs(p: Program): set<nat> { Below(|p.code|) }

  ghost predicate Stopped(p: Program, ts: seq<Thread>) {
    forall i :: 0 <= i < |ts| ==> ts[i].pc < |p.code| && !IsEps(p.code[ts[i].pc].op)
  }

  /** The consuming threads reached from pc without consuming, in priority
   *  order. `stack` holds the instructions of the current run of steps. */
  ghost function Closure(p: Program, w: Text, pc: nat, at: nat, caps: Caps, stack: set<nat>): (r: seq<Thread>)
    requires Linked(p) && pc < |p.code|
    ensures Stopped(p, r)
    decreases Pcs(p) - stack, 0
  {
    if pc in stack then []
    else if !IsEps(p.code[pc].op) then [Thread(pc, caps)]
    else
      assert pc in Pcs(p) - stack;
      ClosureAll(p, w, Next(p, w, pc, at), at, Saved(p, pc, at, caps), stack + {pc})
  }

  ghost function ClosureAll(p: Program, w: Text, pcs: seq<nat>, at: nat, caps: Caps, stack: set<nat>): (r: seq<Thread>)
    requires Linked(p) && Within(p, pcs)
    ensures Stopped(p, r)
    decreases Pcs(p) - stack, |pcs| + 1
  {
    if pcs == [] then []
    else Closure(p, w, pcs[0], at, caps, stack) + ClosureAll(p, w, pcs[1..], at, caps, stack)
  }

  /** The captures of the first accepting run of a thread, trying a split's
   *  preferred branch first. */
  ghost function RunThread(p: Program, w: Text, t: Thread, at: nat): Option<Caps>
    requires Linked(p) && t.pc < |p.code| && at <= |w|
    decreases |w| - at, 0
  {
    if p.code[t.pc].op.OpMatch? then Some(t.caps)
    else if Consumes(p, p.code[t.pc], w, at) then
      assert LinkedInst(p.code[t.pc], t.pc, |p.code|);
      RunAll(p, w, Closure(p, w, t.pc + 1, at + 1, t.caps, {}), at + 1)
    else None
  }

  ghost function RunAll(p: Program, w: Text, ts: seq<Thread>, at: nat): Option<Caps>
    requires Linked(p) && at <= |w| && forall i :: 0 <= i < |ts| ==> ts[i].pc < |p.code|
    decreases |w| - at, |ts| + 1
  {
    if ts == [] then None
    else OrElse(RunThread(p, w, ts[0], at), RunAll(p, w, ts[1..], at))
  }

  function Blanks(slots: nat): (r: Caps)
    ensures |r| == slots
  {
    seq(slots, _ => -1)
  }

  /** The program started at `at`. */
  ghost function RunFrom(p: Program, w: Text, slots: nat, at: nat): Option<Caps>
    requires Linked(p) && |p.code| > 0 && at <= |w|
  {
    RunAll(p, w, Closure(p, w, 0, at, Blanks(slots), {}), at)
  }

  /** The first starting point from which it accepts. */
  ghost function Search(p: Program, w: Text, slots: nat, from: nat): Option<Caps>
    requires Linked(p) && |p.code| > 0
    decreases |w| + 1 - from
  {
    if from > |w| then None
    else OrElse(RunFrom(p, w, slots, from), Search(p, w, slots, from + 1))
  }

  /* -------------------------------------------------------- one closure, memoised */

  datatype Visited = Visited(threads: seq<Thread>, seen: set<nat>)

  /** The same closure computed with one visit mark per instruction. */
  ghost function Visit(p: Program, w: Text, pc: nat, at: nat, caps: Caps, seen: set<nat>): (r: Visited)
    requires Linked(p) && pc < |p.code|
    ensures seen + {pc} <= r.seen && (seen <= Pcs(p) ==> r.seen <= Pcs(p)) && Stopped(p, r.threads)
    decreases Pcs(p) - seen, 0
  {
    if pc in seen then Visited([], seen)
    else if !IsEps(p.code[pc].op) then Visited([Thread(pc, caps)], seen + {pc})
    else
      assert pc in Pcs(p) - seen;
      VisitAll(p, w, Next(p, w, pc, at), at, Saved(p, pc, at, caps), seen + {pc})
  }

  ghost function VisitAll(p: Program, w: Text, pcs: seq<nat>, at: nat, caps: Caps, seen: set<nat>): (r: Visited)
    requires Linked(p) && Within(p, pcs)
    ensures seen <= r.seen && (seen <= Pcs(p) ==> r.seen <= Pcs(p)) && (forall i :: 0 <= i < |pcs| ==> pcs[i] in r.seen)
    ensures Stopped(p, r.threads)
    decreases Pcs(p) - seen, |pcs| + 1
  {
    if pcs == [] then Visited([], seen)
    else
      var a := Visit(p, w, pcs[0], at, caps, seen);
      var b := VisitAll(p, w, pcs[1..], at, caps, a.seen);
      Visited(a.threads + b.threads, b.seen)
  }

  ghost function PcSet(ts: seq<Thread>): set<nat> { set t | t in ts :: t.pc }

  /** Only the first thread at each instruction outside `seen`. */
  ghost function Fresh(ts: seq<Thread>, seen: set<nat>): seq<Thread> {
    if ts == [] then []
    else if ts[0].pc in seen then Fresh(ts[1..], seen)
    else [ts[0]] + Fresh(ts[1..], seen + {ts[0].pc})
  }

  lemma {:induction false} FreshJoin(a: seq<Thread>, b: seq<Thread>, seen: set<nat>)
    ensures Fresh(a + b, seen) == Fresh(a, seen) + Fresh(b, seen + PcSet(a))
    decreases |a|
  {
    if a == [] {
      assert a + b == b && seen + PcSet(a) == seen;
    } else {
      assert (a + b)[1..] == a[1..] + b;
      assert PcSet(a) == {a[0].pc} + PcSet(a[1..]);
      if a[0].pc in seen {
        FreshJoin(a[1..], b, seen);
        assert seen + PcSet(a[1..]) == seen + PcSet(a);
      } else {
        FreshJoin(a[1..], b, seen + {a[0].pc});
        assert seen + {a[0].pc} + PcSet(a[1..]) == seen + PcSet(a);
      }
    }
  }

  /** Fresh looks only at whether the listed instructions are marked. */
  lemma {:induction false} FreshAgree(ts: seq<Thread>, a: set<nat>, b: set<nat>)
    requires forall t :: t in ts ==> (t.pc in a <==> t.pc in b)
    ensures Fresh(ts, a) == Fresh(ts, b)
    decreases |ts|
  {
    if ts != [] {
      if ts[0].pc in a {
        FreshAgree(ts[1..], a, b);
      } else {
        FreshAgree(ts[1..], a + {ts[0].pc}, b + {ts[0].pc});
      }
    }
  }

  lemma {:induction false} FreshPcs(ts: seq<Thread>, seen: set<nat>)
    ensures PcSet(Fresh(ts, seen)) == PcSet(ts) - seen
    decreases |ts|
  {
    if ts != [] {
      assert PcSet(ts) == {ts[0].pc} + PcSet(ts[1..]);
      if ts[0].pc in seen {
        FreshPcs(ts[1..], seen);
      } else {
        FreshPcs(ts[1..], seen + {ts[0].pc});
        assert PcSet(Fresh(ts, seen)) == {ts[0].pc} + PcSet(Fresh(ts[1..], seen + {ts[0].pc}));
      }
    }
  }

  ghost predicate LeadsInto(p: Program, w: Text, at: nat, q: nat, s: set<nat>)
    requires Linked(p)
  {
    q < |p.code| && forall i :: 0 <= i < |Next(p, w, q, at)| ==> Next(p, w, q, at)[i] in s
  }

  /** Every step out of a marked instruction leads to a marked one or onto the stack. */
  ghost predicate Closed(p: Program, w: Text, at: nat, s: set<nat>, stack: set<nat>)
    requires Linked(p)
  {
    s <= Pcs(p) && forall q :: q in s ==> LeadsInto(p, w, at, q, s + stack)
  }

  /** Nothing outside a closed set is listed from inside it. */
  lemma {:induction false} ClosureInside(p: Program, w: Text, pc: nat, at: nat, caps: Caps, s: set<nat>,
                                         stack: set<nat>)
    requires Linked(p) && pc < |p.code| && Closed(p, w, at, s, stack) && pc in s + stack
    ensures PcSet(Closure(p, w, pc, at, caps, stack)) <= s
    decreases Pcs(p) - stack, 0
  {
    if pc !in stack && IsEps(p.code[pc].op) {
      assert LeadsInto(p, w, at, pc, s + stack);
      ClosedGrows(p, w, at, s, stack, pc);
      assert pc in Pcs(p) - stack;
      ClosureAllInside(p, w, Next(p, w, pc, at), at, Saved(p, pc, at, caps), s, stack + {pc});
    }
  }

  lemma {:induction false} ClosureAllInside(p: Program, w: Text, pcs: seq<nat>, at: nat, caps: Caps, s: set<nat>,
                                            stack: set<nat>)
    requires Linked(p) && Within(p, pcs) && Closed(p, w, at, s, stack)
    requires forall i :: 0 <= i < |pcs| ==> pcs[i] in s + stack
    ensures PcSet(ClosureAll(p, w, pcs, at, caps, stack)) <= s
    decreases Pcs(p) - stack, |pcs| + 1
  {
    if pcs != [] {
      ClosureInside(p, w, pcs[0], at, caps, s, stack);
      ClosureAllInside(p, w, pcs[1..], at, caps, s, stack);
      PcSetJoin(Closure(p, w, pcs[0], at, caps, stack), ClosureAll(p, w, pcs[1..], at, caps, stack));
    }
  }

  lemma PcSetJoin(a: seq<Thread>, b: seq<Thread>)
    ensures PcSet(a + b) == PcSet(a) + PcSet(b)
  {
  }

  lemma ClosedGrows(p: Program, w: Text, at: nat, s: set<nat>, stack: set<nat>, pc: nat)
    requires Linked(p) && Closed(p, w, at, s, stack)
    ensures Closed(p, w, at, s, stack + {pc})
  {
    forall q | q in s ensures LeadsInto(p, w, at, q, s + (stack + {pc})) {
      assert LeadsInto(p, w, at, q, s + stack);
    }
  }

  lemma {:induction false} FreshNone(ts: seq<Thread>, seen: set<nat>)
    requires PcSet(ts) <= seen
    ensures Fresh(ts, seen) == []
    decreases |ts|
  {
    if ts != [] {
      assert ts[0].pc in PcSet(ts);
      assert PcSet(ts[1..]) <= PcSet(ts);
      FreshNone(ts[1..], seen);
    }
  }

  /** `r` is what visiting from `seen` must give when the run-by-run closure is `full`. */
  ghost predicate Memoises(p: Program, w: Text, at: nat, full: seq<Thread>, seen: set<nat>, stack: set<nat>, r: Visited)
    requires Linked(p)
  {
    && r.threads == Fresh(full, seen)
    && seen <= r.seen && Closed(p, w, at, r.seen - stack, stack)
    && forall q: nat :: q < |p.code| && !IsEps(p.code[q].op) ==> (q in r.seen <==> q in seen || q in PcSet(r.threads))
  }

  /** Marking instructions instead of runs keeps exactly the first thread at
   *  each instruction: the memoised closure is the plain one, deduplicated. */
  lemma {:induction false} VisitMemoises(p: Program, w: Text, pc: nat, at: nat, caps: Caps, seen: set<nat>,
                                         stack: set<nat>)
    requires Linked(p) && pc < |p.code| && stack <= seen && Closed(p, w, at, seen - stack, stack)
    requires forall q :: q in stack ==> q < |p.code| && IsEps(p.code[q].op)
    ensures Memoises(p, w, at, Closure(p, w, pc, at, caps, stack), seen, stack, Visit(p, w, pc, at, caps, seen))
    decreases Pcs(p) - seen, 0
  {
    var full := Closure(p, w, pc, at, caps, stack);
    if pc in seen {
      ClosureInside(p, w, pc, at, caps, seen - stack, stack);
      FreshNone(full, seen);
    } else if !IsEps(p.code[pc].op) {
      VisitStopped(p, w, pc, at, caps, seen, stack);
    } else {
      assert pc in Pcs(p) - seen;
      assert seen + {pc} - (stack + {pc}) == seen - stack;
      ClosedGrows(p, w, at, seen - stack, stack, pc);
      VisitAllMemoises(p, w, Next(p, w, pc, at), at, Saved(p, pc, at, caps), seen + {pc}, stack + {pc});
      FreshAgree(full, seen, seen + {pc});
      ClosedShrinks(p, w, at, Visit(p, w, pc, at, caps, seen).seen, stack, pc);
    }
  }

  lemma VisitStopped(p: Program, w: Text, pc: nat, at: nat, caps: Caps, seen: set<nat>, stack: set<nat>)
    requires Linked(p) && pc < |p.code| && stack <= seen && Closed(p, w, at, seen - stack, stack)
    requires pc !in seen && !IsEps(p.code[pc].op)
    ensures Memoises(p, w, at, [Thread(pc, caps)], seen, stack, Visited([Thread(pc, caps)], seen + {pc}))
  {
    var s := seen + {pc} - stack;
    forall q | q in s ensures LeadsInto(p, w, at, q, s + stack) {
      if q != pc {
        assert LeadsInto(p, w, at, q, seen - stack + stack);
      }
    }
    assert PcSet([Thread(pc, caps)]) == {pc};
    assert Fresh([Thread(pc, caps)], seen) == [Thread(pc, caps)];
  }

  lemma ClosedShrinks(p: Program, w: Text, at: nat, seen: set<nat>, stack: set<nat>, pc: nat)
    requires Linked(p) && pc < |p.code| && pc !in stack && stack + {pc} <= seen
    requires Closed(p, w, at, seen - (stack + {pc}), stack + {pc})
    requires LeadsInto(p, w, at, pc, seen)
    ensures Closed(p, w, at, seen - stack, stack)
  {
    assert seen - (stack + {pc}) + (stack + {pc}) == seen == seen - stack + stack;
    forall q | q in seen - stack ensures LeadsInto(p, w, at, q, seen - stack + stack) {
      if q != pc {
        assert q in seen - (stack + {pc});
      }
    }
  }

  lemma {:induction false} VisitAllMemoises(p: Program, w: Text, pcs: seq<nat>, at: nat, caps: Caps, seen: set<nat>,
                                            stack: set<nat>)
    requires Linked(p) && Within(p, pcs) && stack <= seen && Closed(p, w, at, seen - stack, stack)
    requires forall q :: q in stack ==> q < |p.code| && IsEps(p.code[q].op)
    ensures Memoises(p, w, at, ClosureAll(p, w, pcs, at, caps, stack), seen, stack, VisitAll(p, w, pcs, at, caps, seen))
    decreases Pcs(p) - seen, |pcs| + 1
  {
    if pcs != [] {
      var a := Visit(p, w, pcs[0], at, caps, seen);
      var b := VisitAll(p, w, pcs[1..], at, caps, a.seen);
      var fa, fb := Closure(p, w, pcs[0], at, caps, stack), ClosureAll(p, w, pcs[1..], at, caps, stack);
      VisitMemoises(p, w, pcs[0], at, caps, seen, stack);
      VisitAllMemoises(p, w, pcs[1..], at, caps, a.seen, stack);
      FreshJoin(fa, fb, seen);
      FreshPcs(fa, seen);
      FreshAgree(fb, seen + PcSet(fa), a.seen);
      PcSetJoin(a.threads, b.threads);
    }
  }

  /* -------------------------------------------------------- dropping duplicates changes nothing */

  lemma {:induction false} RunJoin(p: Program, w: Text, a: seq<Thread>, b: seq<Thread>, at: nat)
    requires Linked(p) && at <= |w| && Stopped(p, a) && Stopped(p, b)
    ensures RunAll(p, w, a + b, at) == OrElse(RunAll(p, w, a, at), RunAll(p, w, b, at))
    decreases |a|
  {
    if a == [] {
      assert a + b == b;
    } else {
      assert (a + b)[1..] == a[1..] + b;
      RunJoin(p, w, a[1..], b, at);
    }
  }

  ghost predicate SamePcs(a: seq<Thread>, b: seq<Thread>) {
    |a| == |b| && forall i :: 0 <= i < |a| ==> a[i].pc == b[i].pc
  }

  /** Captures never decide where a thread goes. */
  lemma {:induction false} ClosureSamePcs(p: Program, w: Text, pc: nat, at: nat, c: Caps, d: Caps, stack: set<nat>)
    requires Linked(p) && pc < |p.code|
    ensures SamePcs(Closure(p, w, pc, at, c, stack), Closure(p, w, pc, at, d, stack))
    decreases Pcs(p) - stack, 0
  {
    if pc !in stack && IsEps(p.code[pc].op) {
      assert pc in Pcs(p) - stack;
      ClosureAllSamePcs(p, w, Next(p, w, pc, at), at, Saved(p, pc, at, c), Saved(p, pc, at, d), stack + {pc});
    }
  }

  lemma {:induction false} ClosureAllSamePcs(p: Program, w: Text, pcs: seq<nat>, at: nat, c: Caps, d: Caps,
                                             stack: set<nat>)
    requires Linked(p) && Within(p, pcs)
    ensures SamePcs(ClosureAll(p, w, pcs, at, c, stack), ClosureAll(p, w, pcs, at, d, stack))
    decreases Pcs(p) - stack, |pcs| + 1
  {
    if pcs != [] {
      ClosureSamePcs(p, w, pcs[0], at, c, d, stack);
      ClosureAllSamePcs(p, w, pcs[1..], at, c, d, stack);
    }
  }

  lemma {:induction false} SameFate(p: Program, w: Text, t: Thread, u: Thread, at: nat)
    requires Linked(p) && t.pc == u.pc < |p.code| && at <= |w|
    ensures RunThread(p, w, t, at).Some? <==> RunThread(p, w, u, at).Some?
    decreases |w| - at, 0
  {
    if !p.code[t.pc].op.OpMatch? && Consumes(p, p.code[t.pc], w, at) {
      assert LinkedInst(p.code[t.pc], t.pc, |p.code|);
      ClosureSamePcs(p, w, t.pc + 1, at + 1, t.caps, u.caps, {});
      SameFates(p, w, Closure(p, w, t.pc + 1, at + 1, t.caps, {}), Closure(p, w, t.pc + 1, at + 1, u.caps, {}), at + 1);
    }
  }

  lemma {:induction false} SameFates(p: Program, w: Text, a: seq<Thread>, b: seq<Thread>, at: nat)
    requires Linked(p) && at <= |w| && SamePcs(a, b) && Stopped(p, a) && Stopped(p, b)
    ensures RunAll(p, w, a, at).Some? <==> RunAll(p, w, b, at).Some?
    decreases |w| - at, |a| + 1
  {
    if a != [] {
      SameFate(p, w, a[0], b[0], at);
      SameFates(p, w, a[1..], b[1..], at);
    }
  }

  lemma {:induction false} RunNone(p: Program, w: Text, ts: seq<Thread>, i: nat, at: nat)
    requires Linked(p) && at <= |w| && Stopped(p, ts) && i < |ts| && RunAll(p, w, ts, at).None?
    ensures RunThread(p, w, ts[i], at).None?
    decreases i
  {
    if i > 0 {
      RunNone(p, w, ts[1..], i - 1, at);
    }
  }

  lemma DropLater(p: Program, w: Text, early: seq<Thread>, t: Thread, rest: seq<Thread>, at: nat)
    requires Linked(p) && at <= |w| && Stopped(p, early) && Stopped(p, [t] + rest) && Stopped(p, rest)
    requires t.pc in PcSet(early)
    ensures Stopped(p, early + ([t] + rest)) && Stopped(p, early + rest)
    ensures RunAll(p, w, early + ([t] + rest), at) == RunAll(p, w, early + rest, at)
  {
    RunJoin(p, w, early, [t] + rest, at);
    RunJoin(p, w, early, rest, at);
    assert ([t] + rest)[0] == t && ([t] + rest)[1..] == rest;
    if RunAll(p, w, early, at).None? {
      var i :| 0 <= i < |early| && early[i].pc == t.pc;
      RunNone(p, w, early, i, at);
      SameFate(p, w, early[i], t, at);
    }
  }

  /** A thread whose instruction already has an earlier thread can be dropped. */
  lemma {:induction false} FreshRun(p: Program, w: Text, early: seq<Thread>, ts: seq<Thread>, seen: set<nat>, at: nat)
    requires Linked(p) && at <= |w| && Stopped(p, early) && Stopped(p, ts)
    requires forall i :: 0 <= i < |ts| && ts[i].pc in seen ==> ts[i].pc in PcSet(early)
    ensures Stopped(p, Fresh(ts, seen))
    ensures RunAll(p, w, early + Fresh(ts, seen), at) == RunAll(p, w, early + ts, at)
    decreases |ts|
  {
    hide RunAll, RunThread, PcSet;
    if ts != [] {
      var t, rest := ts[0], ts[1..];
      assert ts == [t] + rest;
      if t.pc in seen {
        FreshRun(p, w, early, rest, seen, at);
        DropLater(p, w, early, t, rest, at);
      } else {
        KeepFirst(early, t, rest, seen);
        FreshRun(p, w, early + [t], rest, seen + {t.pc}, at);
      }
    }
  }

  lemma KeepFirst(early: seq<Thread>, t: Thread, rest: seq<Thread>, seen: set<nat>)
    requires t.pc !in seen
    ensures early + [t] + rest == early + ([t] + rest)
    ensures early + [t] + Fresh(rest, seen + {t.pc}) == early + Fresh([t] + rest, seen)
    ensures PcSet(early + [t]) == PcSet(early) + {t.pc}
  {
    hide *;
    PcSetJoin(early, [t]);
    PcSetOne(t);
    FreshFirst(t, rest, seen);
    JoinThree(early, [t], rest);
    JoinThree(early, [t], Fresh(rest, seen + {t.pc}));
  }

  lemma JoinThree(a: seq<Thread>, b: seq<Thread>, c: seq<Thread>)
    ensures a + b + c == a + (b + c)
  {}

  lemma PcSetOne(t: Thread)
    ensures PcSet([t]) == {t.pc}
  {}

  lemma FreshFirst(t: Thread, rest: seq<Thread>, seen: set<nat>)
    requires t.pc !in seen
    ensures Fresh([t] + rest, seen) == [t] + Fresh(rest, seen + {t.pc})
  {
    assert ([t] + rest)[1..] == rest;
  }

  /** Marks and threads agree, so that a marked instruction can be skipped. */
  ghost predicate Settled(p: Program, w: Text, ts: seq<Thread>, marks: set<nat>, at: nat)
    requires Linked(p)
  {
    && Stopped(p, ts) && Closed(p, w, at, marks, {})
    && forall q: nat :: q < |p.code| && !IsEps(p.code[q].op) && q in marks ==> q in PcSet(ts)
  }

  /** One top-level closure added to a thread list, its marks shared with the
   *  list: the list still stands for the same backtracker. */
  lemma VisitRun(p: Program, w: Text, early: seq<Thread>, pc: nat, at: nat, caps: Caps, seen: set<nat>)
    requires Linked(p) && pc < |p.code| && at <= |w| && Settled(p, w, early, seen, at)
    ensures var r := Visit(p, w, pc, at, caps, seen);
            && Settled(p, w, early + r.threads, r.seen, at)
            && RunAll(p, w, early + r.threads, at) ==
               OrElse(RunAll(p, w, early, at), RunAll(p, w, Closure(p, w, pc, at, caps, {}), at))
  {
    hide RunAll, Visit, Closure;
    var r, full := Visit(p, w, pc, at, caps, seen), Closure(p, w, pc, at, caps, {});
    assert seen - {} == seen && r.seen - {} == r.seen;
    VisitMemoises(p, w, pc, at, caps, seen, {});
    MemoisedRun(p, w, early, full, at, seen, r);
  }

  lemma MemoisedRun(p: Program, w: Text, early: seq<Thread>, full: seq<Thread>, at: nat, seen: set<nat>, r: Visited)
    requires Linked(p) && at <= |w| && Settled(p, w, early, seen, at) && Stopped(p, full) && Stopped(p, r.threads)
    requires Memoises(p, w, at, full, seen, {}, r) && r.seen - {} == r.seen
    ensures Settled(p, w, early + r.threads, r.seen, at)
    ensures RunAll(p, w, early + r.threads, at) == OrElse(RunAll(p, w, early, at), RunAll(p, w, full, at))
  {
    hide RunAll, Fresh, Closed;
    FreshRun(p, w, early, full, seen, at);
    RunJoin(p, w, early, full, at);
    PcSetJoin(early, r.threads);
  }
}
