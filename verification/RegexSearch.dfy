/** The thread-list machine of runtime/src/regex.c: every thread runs abreast,
 *  at most one per instruction, ordered by priority. It returns what the
 *  memoryless backtracker of RegexBacktrack returns, in linear time. */
module RegexSearch {
  import opened Options
  import opened RegexTree
  import opened RegexProgram
  import opened RegexBacktrack
  import L = RegexLayout

  lemma WellFormedIsLinked(p: Program, slots: nat)
    requires L.WellFormed(p, slots)
    ensures Linked(p)
  {
    forall pc: nat | pc < |p.code| ensures LinkedInst(p.code[pc], pc, |p.code|) {
      assert L.InstWithin(p.code[pc], |p.code|, |p.sets|, slots, pc);
    }
  }

  lemma InstIsWithin(p: Program, slots: nat, pc: nat)
    requires L.WellFormed(p, slots) && pc < |p.code|
    ensures L.InstWithin(p.code[pc], |p.code|, |p.sets|, slots, pc)
  {
  }

  /** One thread list: the consuming threads in priority order, and a visit
   *  mark per instruction that counts only when it equals `gen`. */
  class ThreadList {
    const np: nat
    const dense: array<nat>
    const caps: array<Caps>
    const seen: array<int>
    var gen: int
    var n: nat
    ghost var threads: seq<Thread>

    function Arrays(): set<object> { {dense as object, caps as object, seen as object} }

    ghost predicate Valid()
      reads this, dense, caps, seen
    {
      && dense.Length == caps.Length == seen.Length == np && n <= np && dense as object != seen
      && |threads| == n && (forall i :: 0 <= i < n ==> threads[i] == Thread(dense[i], caps[i]))
      && gen >= 0 && (forall q :: 0 <= q < np ==> 0 <= seen[q] <= gen)
    }

    ghost function Marks(): (r: set<nat>)
      reads this, seen
      ensures forall q: nat :: q in r <==> q < seen.Length && seen[q] == gen
      ensures |r| <= seen.Length
    {
      var r := set q | q in Below(seen.Length) && seen[q] == gen;
      SubsetSize(r, Below(seen.Length));
      r
    }

    constructor (size: nat)
      ensures Valid() && np == size && threads == [] && gen == 0
      ensures fresh(dense) && fresh(caps) && fresh(seen) && dense as object != seen
    {
      np := size;
      dense := new nat[size];
      caps := new Caps[size](_ => []);
      seen := new int[size](_ => 0);
      gen, n, threads := 0, 0, [];
    }

    /** Empties the list; bumping `gen` voids every mark at once. */
    method Clear()
      requires Valid()
      modifies this
      ensures Valid() && threads == [] && Marks() == {}
    {
      n := 0;
      gen := gen + 1;
      threads := [];
    }

    method Mark(pc: nat)
      requires Valid() && pc < np
      modifies seen
      ensures Valid() && Marks() == old(Marks()) + {pc}
    {
      seen[pc] := gen;
    }

    method Add(pc: nat, cap: Caps)
      requires Valid() && n < np
      modifies this`n, this`threads, dense, caps
      ensures Valid() && threads == old(threads) + [Thread(pc, cap)] && Marks() == old(Marks()) && n == old(n) + 1
    {
      dense[n], caps[n] := pc, cap;
      n := n + 1;
      threads := threads + [Thread(pc, cap)];
    }
  }

  lemma {:induction false} SubsetSize<T>(a: set<T>, b: set<T>)
    requires a <= b
    ensures |a| <= |b|
    decreases a
  {
    if a != {} {
      var x :| x in a;
      SubsetSize(a - {x}, b - {x});
    }
  }

  class Machine {
    const p: Program
    const w: Text
    const slots: nat
    var cap: Caps           // the capture vector being filled in
    ghost var calls: nat    // calls to AddThread so far

    constructor (p: Program, w: Text, slots: nat)
      ensures this.p == p && this.w == w && this.slots == slots && calls == 0
    {
      this.p, this.w, this.slots := p, w, slots;
      cap, calls := [], 0;
    }

    /** What one addition to a list leaves: r's threads appended and r's marks
     *  set, the capture vector as it was, at most 1 + 2 calls per new mark. */
    twostate predicate Added(l: ThreadList, r: Visited, spent: nat)
      reads this, l, l.dense, l.caps, l.seen
    {
      && l.Valid() && l.n <= |l.Marks()| && cap == old(cap)
      && l.threads == old(l.threads) + r.threads && l.Marks() == r.seen
      && calls + 2 * old(|l.Marks()|) <= old(calls) + spent + 2 * |l.Marks()|
    }

    /** Follows the non-consuming instructions from pc, preferred branch first,
     *  entering none twice. The capture vector is borrowed: it comes back as it was. */
    method AddThread(l: ThreadList, pc: nat, sp: nat)
      requires L.WellFormed(p, slots) && Linked(p) && |cap| == slots && sp <= |w|
      requires l.Valid() && l.np == |p.code| && pc < l.np && l.n <= |l.Marks()|
      modifies this, l`n, l`threads, l.dense, l.caps, l.seen
      ensures Added(l, Visit(p, w, pc, sp, old(cap), old(l.Marks())), 1)
      decreases Pcs(p) - l.Marks(), 0
    {
      calls := calls + 1;
      if l.seen[pc] == l.gen { return; }
      ghost var marks := l.Marks();
      l.Mark(pc);
      MarkSize(marks, pc);
      assert pc in Pcs(p) - marks;
      if IsEps(p.code[pc].op) {
        AddNext(l, pc, sp);
      } else {
        l.Add(pc, cap);
      }
    }

    /** The non-consuming cases: jumps, splits (x first), saves and anchors. */
    method AddNext(l: ThreadList, pc: nat, sp: nat)
      requires L.WellFormed(p, slots) && Linked(p) && |cap| == slots && sp <= |w|
      requires l.Valid() && l.np == |p.code| && pc < l.np && l.n <= |l.Marks()| && IsEps(p.code[pc].op)
      modifies this, l`n, l`threads, l.dense, l.caps, l.seen
      ensures Added(l, VisitAll(p, w, Next(p, w, pc, sp), sp, Saved(p, pc, sp, old(cap)), old(l.Marks())), 2)
      decreases Pcs(p) - l.Marks(), 2
    {
      hide Visit, VisitAll, Consumes, Closure, L.WellFormed, Linked;
      var ins := p.code[pc];
      ghost var here, marks := cap, l.Marks();
      VisitNone(p, w, sp, here, marks);
      InstIsWithin(p, slots, pc);
      match ins.op
      case OpJmp =>
        VisitOne(p, w, ins.x, sp, here, marks);
        AddThread(l, ins.x, sp);
      case OpSplit =>
        AddBoth(l, ins.x, ins.y, sp);
      case OpSave =>
        AddSaved(l, pc, ins.x, sp);
      case OpBol =>
        if sp == 0 {
          VisitOne(p, w, pc + 1, sp, here, marks);
          AddThread(l, pc + 1, sp);
        }
      case OpEol =>
        if sp == |w| {
          VisitOne(p, w, pc + 1, sp, here, marks);
          AddThread(l, pc + 1, sp);
        }
    }

    /** x first: priority order is what makes greedy greedy. */
    method AddBoth(l: ThreadList, x: nat, y: nat, sp: nat)
      requires L.WellFormed(p, slots) && Linked(p) && |cap| == slots && sp <= |w|
      requires l.Valid() && l.np == |p.code| && x < l.np && y < l.np && l.n <= |l.Marks()|
      modifies this, l`n, l`threads, l.dense, l.caps, l.seen
      ensures Added(l, VisitAll(p, w, [x, y], sp, old(cap), old(l.Marks())), 2)
      decreases Pcs(p) - l.Marks(), 1
    {
      hide Visit, VisitAll, Consumes, Closure, L.WellFormed, Linked;
      ghost var here, marks, before := cap, l.Marks(), l.threads;
      VisitTwo(p, w, x, y, sp, here, marks);
      AddThread(l, x, sp);
      AddThread(l, y, sp);
      ghost var a := Visit(p, w, x, sp, here, marks);
      ghost var b := Visit(p, w, y, sp, here, a.seen);
      assert before + a.threads + b.threads == before + (a.threads + b.threads);
    }

    /** Writes the slot, follows on, and writes the old value back. */
    method AddSaved(l: ThreadList, pc: nat, slot: nat, sp: nat)
      requires L.WellFormed(p, slots) && Linked(p) && |cap| == slots && sp <= |w| && slot < slots
      requires l.Valid() && l.np == |p.code| && pc + 1 < l.np && l.n <= |l.Marks()|
      modifies this, l`n, l`threads, l.dense, l.caps, l.seen
      ensures Added(l, VisitAll(p, w, [pc + 1], sp, Put(old(cap), slot, sp), old(l.Marks())), 2)
      decreases Pcs(p) - l.Marks(), 1
    {
      hide Visit, VisitAll, Consumes, Closure, L.WellFormed, Linked;
      ghost var here, marks := cap, l.Marks();
      VisitOne(p, w, pc + 1, sp, Put(here, slot, sp), marks);
      var old' := cap[slot];
      cap := cap[slot := sp];
      AddThread(l, pc + 1, sp);
      cap := cap[slot := old'];
    }
  }

  lemma VisitNone(p: Program, w: Text, at: nat, caps: Caps, seen: set<nat>)
    requires Linked(p)
    ensures VisitAll(p, w, [], at, caps, seen) == Visited([], seen)
  {
  }

  lemma MarkSize(s: set<nat>, pc: nat)
    requires pc !in s
    ensures |s + {pc}| == |s| + 1
  {
  }

  lemma VisitOne(p: Program, w: Text, q: nat, at: nat, caps: Caps, seen: set<nat>)
    requires Linked(p) && q < |p.code|
    ensures VisitAll(p, w, [q], at, caps, seen) == Visit(p, w, q, at, caps, seen)
  {
    var a := Visit(p, w, q, at, caps, seen);
    assert [q][1..] == [] && a.threads + [] == a.threads;
  }

  lemma VisitTwo(p: Program, w: Text, x: nat, y: nat, at: nat, caps: Caps, seen: set<nat>)
    requires Linked(p) && x < |p.code| && y < |p.code|
    ensures var a := Visit(p, w, x, at, caps, seen);
            var b := Visit(p, w, y, at, caps, a.seen);
            VisitAll(p, w, [x, y], at, caps, seen) == Visited(a.threads + b.threads, b.seen)
  {
    var a := Visit(p, w, x, at, caps, seen);
    VisitOne(p, w, y, at, caps, a.seen);
    assert [x, y][1..] == [y];
  }

  /** What the threads of a list, tried in order at `at`, come to. */
  ghost function Ahead(p: Program, w: Text, ts: seq<Thread>, at: nat): Option<Caps>
    requires Linked(p) && Stopped(p, ts)
  {
    if at <= |w| then RunAll(p, w, ts, at) else None
  }

  /** What is still to be decided at `at`: the listed threads first, then the
   *  match already found or, if there is none, every later starting point. */
  ghost function Pending(p: Program, w: Text, slots: nat, ts: seq<Thread>, at: nat, matched: bool,
                         out: Caps): Option<Caps>
    requires Linked(p) && |p.code| > 0 && Stopped(p, ts)
  {
    OrElse(Ahead(p, w, ts, at), if matched then Some(out) else Search(p, w, slots, at))
  }

  ghost predicate CapsFit(ts: seq<Thread>, slots: nat) {
    forall i :: 0 <= i < |ts| ==> |ts[i].caps| == slots
  }

  /** Starting a new thread at `at` behind the ones already listed. */
  lemma Inject(p: Program, w: Text, slots: nat, ts: seq<Thread>, marks: set<nat>, at: nat, out: Caps)
    requires Linked(p) && |p.code| > 0 && at <= |w| && Settled(p, w, ts, marks, at)
    ensures var r := Visit(p, w, 0, at, Blanks(slots), marks);
            && Settled(p, w, ts + r.threads, r.seen, at)
            && Pending(p, w, slots, ts, at, false, out) ==
               OrElse(RunAll(p, w, ts + r.threads, at), Search(p, w, slots, at + 1))
  {
    assert Search(p, w, slots, at) == OrElse(RunFrom(p, w, slots, at), Search(p, w, slots, at + 1));
    hide RunAll, Visit, Closure, Search, Settled;
    VisitRun(p, w, ts, 0, at, Blanks(slots), marks);
  }

  lemma RunHead(p: Program, w: Text, ts: seq<Thread>, i: nat, at: nat)
    requires Linked(p) && Stopped(p, ts) && i < |ts| && at <= |w|
    ensures Stopped(p, ts[i..]) && Stopped(p, ts[i + 1..])
    ensures RunAll(p, w, ts[i..], at) == OrElse(RunThread(p, w, ts[i], at), RunAll(p, w, ts[i + 1..], at))
  {
    hide RunThread;
    assert ts[i..][1..] == ts[i + 1..];
  }

  /** A thread that consumes the byte at `at` becomes the closure of its next instruction. */
  lemma RunConsuming(p: Program, w: Text, t: Thread, at: nat)
    requires Linked(p) && t.pc < |p.code| && at <= |w| && Consumes(p, p.code[t.pc], w, at)
    ensures at < |w| && t.pc + 1 < |p.code|
    ensures RunThread(p, w, t, at) == RunAll(p, w, Closure(p, w, t.pc + 1, at + 1, t.caps, {}), at + 1)
  {
    hide RunAll, Closure;
    assert LinkedInst(p.code[t.pc], t.pc, |p.code|);
  }

  /** One thread's step: what it adds to the next list. */
  lemma Advance(p: Program, w: Text, ts: seq<Thread>, i: nat, next: seq<Thread>, marks: set<nat>, at: nat)
    requires Linked(p) && Stopped(p, ts) && i < |ts| && at <= |w| && Settled(p, w, next, marks, at + 1)
    requires Consumes(p, p.code[ts[i].pc], w, at)
    ensures at < |w| && ts[i].pc + 1 < |p.code|
    ensures var r := Visit(p, w, ts[i].pc + 1, at + 1, ts[i].caps, marks);
            && Settled(p, w, next + r.threads, r.seen, at + 1)
            && OrElse(Ahead(p, w, next, at + 1), RunAll(p, w, ts[i..], at)) ==
               OrElse(Ahead(p, w, next + r.threads, at + 1), RunAll(p, w, ts[i + 1..], at))
  {
    hide RunAll, RunThread, Visit, Closure, Settled, Consumes;
    SettledStopped(p, w, next, marks, at + 1);
    RunHead(p, w, ts, i, at);
    RunConsuming(p, w, ts[i], at);
    VisitRun(p, w, next, ts[i].pc + 1, at + 1, ts[i].caps, marks);
  }

  lemma SettledStopped(p: Program, w: Text, ts: seq<Thread>, marks: set<nat>, at: nat)
    requires Linked(p) && Settled(p, w, ts, marks, at)
    ensures Stopped(p, ts)
  {
  }

  lemma DropThread(p: Program, w: Text, ts: seq<Thread>, i: nat, at: nat)
    requires Linked(p) && Stopped(p, ts) && i < |ts| && at <= |w|
    ensures Stopped(p, ts[i..]) && Stopped(p, ts[i + 1..])
    ensures p.code[ts[i].pc].op.OpMatch? ==> RunAll(p, w, ts[i..], at) == Some(ts[i].caps)
    ensures !p.code[ts[i].pc].op.OpMatch? && !Consumes(p, p.code[ts[i].pc], w, at) ==>
              RunAll(p, w, ts[i..], at) == RunAll(p, w, ts[i + 1..], at)
  {
    hide RunAll;
    RunHead(p, w, ts, i, at);
  }

  lemma {:induction false} VisitCaps(p: Program, w: Text, pc: nat, at: nat, caps: Caps, seen: set<nat>)
    requires Linked(p) && pc < |p.code|
    ensures CapsFit(Visit(p, w, pc, at, caps, seen).threads, |caps|)
    decreases Pcs(p) - seen, 0
  {
    if pc !in seen && IsEps(p.code[pc].op) {
      assert pc in Pcs(p) - seen;
      VisitAllCaps(p, w, Next(p, w, pc, at), at, Saved(p, pc, at, caps), seen + {pc});
    }
  }

  lemma {:induction false} VisitAllCaps(p: Program, w: Text, pcs: seq<nat>, at: nat, caps: Caps, seen: set<nat>)
    requires Linked(p) && Within(p, pcs)
    ensures CapsFit(VisitAll(p, w, pcs, at, caps, seen).threads, |caps|)
    decreases Pcs(p) - seen, |pcs| + 1
  {
    if pcs != [] {
      VisitCaps(p, w, pcs[0], at, caps, seen);
      VisitAllCaps(p, w, pcs[1..], at, caps, Visit(p, w, pcs[0], at, caps, seen).seen);
    }
  }

  ghost predicate Separate(a: ThreadList, b: ThreadList)
  {
    a != b && a.Arrays() !! b.Arrays()
  }

  /** What a list being filled for position `at` must satisfy. */
  ghost predicate Filling(m: Machine, l: ThreadList, at: nat)
    requires Linked(m.p)
    reads l, l.dense, l.caps, l.seen
  {
    && l.Valid() && l.np == |m.p.code| && l.n <= |l.Marks()| && CapsFit(l.threads, m.slots)
    && Settled(m.p, m.w, l.threads, l.Marks(), at) && Stopped(m.p, l.threads)
  }

  lemma FillingParts(m: Machine, l: ThreadList, at: nat)
    requires Linked(m.p) && Filling(m, l, at)
    ensures l.Valid() && l.np == |m.p.code| && l.n <= |l.Marks()| && CapsFit(l.threads, m.slots)
    ensures Settled(m.p, m.w, l.threads, l.Marks(), at) && Stopped(m.p, l.threads) && |l.Marks()| <= |m.p.code|
  {
    hide Settled, Stopped, CapsFit, Linked;
  }

  lemma FillingMade(m: Machine, l: ThreadList, at: nat)
    requires Linked(m.p) && l.Valid() && l.np == |m.p.code| && l.n <= |l.Marks()| && CapsFit(l.threads, m.slots)
    requires Settled(m.p, m.w, l.threads, l.Marks(), at) && Stopped(m.p, l.threads)
    ensures Filling(m, l, at)
  {
    hide Settled, Stopped, CapsFit, Linked;
  }

  lemma CapsAt(ts: seq<Thread>, slots: nat, i: nat)
    requires CapsFit(ts, slots) && i < |ts|
    ensures |ts[i].caps| == slots
  {
  }

  lemma CapsJoin(a: seq<Thread>, b: seq<Thread>, slots: nat)
    requires CapsFit(a, slots) && CapsFit(b, slots)
    ensures CapsFit(a + b, slots)
  {
  }

  /** One thread on the byte at sp: it dies, moves into `nlist`, or has matched. */
  method StepOne(m: Machine, clist: ThreadList, i: nat, nlist: ThreadList, sp: nat) returns (hit: Option<Caps>)
    requires L.WellFormed(m.p, m.slots) && Linked(m.p) && sp <= |m.w|
    requires clist.Valid() && i < clist.n && clist.np == |m.p.code| && Separate(clist, nlist)
    requires Stopped(m.p, clist.threads) && CapsFit(clist.threads, m.slots) && Filling(m, nlist, sp + 1)
    modifies m, nlist`n, nlist`threads, nlist.dense, nlist.caps, nlist.seen
    ensures Filling(m, nlist, sp + 1) && clist.threads == old(clist.threads)
    ensures hit.Some? ==> nlist.threads == old(nlist.threads) && |hit.value| == m.slots
    ensures Stopped(m.p, clist.threads[i..]) && Stopped(m.p, clist.threads[i + 1..])
    ensures OrElse(Ahead(m.p, m.w, old(nlist.threads), sp + 1), RunAll(m.p, m.w, clist.threads[i..], sp)) ==
            OrElse(Ahead(m.p, m.w, nlist.threads, sp + 1),
                   if hit.Some? then hit else RunAll(m.p, m.w, clist.threads[i + 1..], sp))
    ensures m.calls + 2 * old(|nlist.Marks()|) <= old(m.calls) + 1 + 2 * |nlist.Marks()|
  {
    hide Visit, RunAll, RunThread, RunFrom, Search, Closure, L.WellFormed, Settled, Stopped, Linked, Ahead, Consumes,
         Filling, CapsFit, Next, Saved, Put;
    FillingParts(m, nlist, sp + 1);
    CapsAt(clist.threads, m.slots, i);
    var p, w, pc := m.p, m.w, clist.dense[i];
    StoppedAt(p, clist.threads, i);
    DropThread(p, w, clist.threads, i, sp);
    hit := None;
    if p.code[pc].op.OpMatch? {
      hit := Some(clist.caps[i]);
    } else if Consumes(p, p.code[pc], w, sp) {
      MoveOn(m, clist, i, nlist, sp);
    }
  }

  /** A thread that consumed the byte at sp goes on in `nlist`. */
  method MoveOn(m: Machine, clist: ThreadList, i: nat, nlist: ThreadList, sp: nat)
    requires L.WellFormed(m.p, m.slots) && Linked(m.p) && sp <= |m.w|
    requires clist.Valid() && i < clist.n && clist.np == |m.p.code| && Separate(clist, nlist)
    requires Stopped(m.p, clist.threads) && CapsFit(clist.threads, m.slots) && Filling(m, nlist, sp + 1)
    requires clist.dense[i] < |m.p.code| && Consumes(m.p, m.p.code[clist.dense[i]], m.w, sp)
    modifies m, nlist`n, nlist`threads, nlist.dense, nlist.caps, nlist.seen
    ensures Filling(m, nlist, sp + 1) && clist.threads == old(clist.threads) && Stopped(m.p, nlist.threads)
    ensures Stopped(m.p, clist.threads[i..]) && Stopped(m.p, clist.threads[i + 1..])
    ensures OrElse(Ahead(m.p, m.w, old(nlist.threads), sp + 1), RunAll(m.p, m.w, clist.threads[i..], sp)) ==
            OrElse(Ahead(m.p, m.w, nlist.threads, sp + 1), RunAll(m.p, m.w, clist.threads[i + 1..], sp))
    ensures m.calls + 2 * old(|nlist.Marks()|) <= old(m.calls) + 1 + 2 * |nlist.Marks()|
  {
    hide Visit, RunAll, RunThread, RunFrom, Search, Closure, L.WellFormed, Settled, Stopped, Linked, Ahead, Consumes,
         Filling, CapsFit, Next, Saved, Put;
    ghost var before := nlist.threads;
    var p, w, pc := m.p, m.w, clist.dense[i];
    FillingParts(m, nlist, sp + 1);
    CapsAt(clist.threads, m.slots, i);
    DropThread(p, w, clist.threads, i, sp);
    Advance(p, w, clist.threads, i, before, nlist.Marks(), sp);
    m.cap := clist.caps[i];
    assert m.cap == clist.threads[i].caps && pc == clist.threads[i].pc;
    VisitCaps(p, w, pc + 1, sp + 1, m.cap, nlist.Marks());
    ghost var r := Visit(p, w, pc + 1, sp + 1, m.cap, nlist.Marks());
    CapsJoin(before, r.threads, m.slots);
    SettledStopped(p, w, before + r.threads, r.seen, sp + 1);
    m.AddThread(nlist, pc + 1, sp + 1);
    assert nlist.threads == before + r.threads && nlist.Marks() == r.seen;
    FillingMade(m, nlist, sp + 1);
  }

  /** Runs every thread of `clist` on the byte at sp, filling `nlist`. A MATCH
   *  is handed back and cuts every thread behind it. */
  method StepAll(m: Machine, clist: ThreadList, nlist: ThreadList, sp: nat) returns (cut: Option<Caps>)
    requires L.WellFormed(m.p, m.slots) && Linked(m.p) && sp <= |m.w|
    requires clist.Valid() && clist.np == |m.p.code| && Separate(clist, nlist)
    requires Stopped(m.p, clist.threads) && CapsFit(clist.threads, m.slots)
    requires Filling(m, nlist, sp + 1) && nlist.threads == [] && nlist.Marks() == {}
    modifies m, nlist`n, nlist`threads, nlist.dense, nlist.caps, nlist.seen
    ensures Filling(m, nlist, sp + 1) && (cut.Some? ==> |cut.value| == m.slots)
    ensures RunAll(m.p, m.w, clist.threads, sp) == OrElse(Ahead(m.p, m.w, nlist.threads, sp + 1), cut)
    ensures m.calls <= old(m.calls) + |clist.threads| + 2 * |nlist.Marks()|
  {
    hide Visit, RunAll, RunThread, Closure, Settled, Stopped, Linked, L.WellFormed, Ahead, Consumes, Filling, CapsFit;
    ghost var p, w, ts := m.p, m.w, clist.threads;
    StartEmpty(p, w, ts, sp);
    var i := 0;
    while i < clist.n
      invariant 0 <= i <= clist.n == |ts| && clist.Valid() && clist.threads == ts
      invariant Filling(m, nlist, sp + 1) && Stopped(p, ts[i..]) && Stopped(p, nlist.threads)
      invariant OrElse(Ahead(p, w, nlist.threads, sp + 1), RunAll(p, w, ts[i..], sp)) == RunAll(p, w, ts, sp)
      invariant m.calls <= old(m.calls) + i + 2 * |nlist.Marks()|
    {
      cut := StepOne(m, clist, i, nlist, sp);
      FillingParts(m, nlist, sp + 1);
      if cut.Some? { return; }
      i := i + 1;
    }
    cut := None;
    EndEmpty(p, w, ts, sp);
  }

  lemma CapsNone(slots: nat)
    ensures CapsFit([], slots)
  {
  }

  lemma StoppedAt(p: Program, ts: seq<Thread>, i: nat)
    requires Stopped(p, ts) && i < |ts|
    ensures ts[i].pc < |p.code|
  {
  }

  lemma StartEmpty(p: Program, w: Text, ts: seq<Thread>, at: nat)
    requires Linked(p) && Stopped(p, ts) && at <= |w|
    ensures Settled(p, w, [], {}, at + 1) && Stopped(p, []) && Stopped(p, ts[0..])
    ensures OrElse(Ahead(p, w, [], at + 1), RunAll(p, w, ts[0..], at)) == RunAll(p, w, ts, at)
  {
    assert ts[0..] == ts;
  }

  lemma EndEmpty(p: Program, w: Text, ts: seq<Thread>, at: nat)
    requires Linked(p) && Stopped(p, ts) && at <= |w|
    ensures Stopped(p, ts[|ts|..]) && RunAll(p, w, ts[|ts|..], at) == None
  {
  }

  lemma EmptySettled(p: Program, w: Text, at: nat)
    requires Linked(p)
    ensures Settled(p, w, [], {}, at) && Stopped(p, [])
  {
  }

  lemma FirstList(p: Program, w: Text, slots: nat, from: nat)
    requires Linked(p) && |p.code| > 0
    ensures Settled(p, w, [], {}, from) && Stopped(p, [])
    ensures Pending(p, w, slots, [], from, false, []) == Search(p, w, slots, from)
  {
  }

  /** A whole step of the search: after injection and stepping, the pending
   *  result is that of the next list. */
  lemma NextList(p: Program, w: Text, slots: nat, ts: seq<Thread>, at: nat, cut: Option<Caps>, next: seq<Thread>,
                 matched: bool, out: Caps)
    requires Linked(p) && |p.code| > 0 && Stopped(p, ts) && Stopped(p, next) && at <= |w|
    requires RunAll(p, w, ts, at) == OrElse(Ahead(p, w, next, at + 1), cut)
    ensures OrElse(RunAll(p, w, ts, at), if matched then Some(out) else Search(p, w, slots, at + 1)) ==
            Pending(p, w, slots, next, at + 1, matched || cut.Some?, if cut.Some? then cut.value else out)
  {
  }

  lemma SearchEnds(p: Program, w: Text, slots: nat, ts: seq<Thread>, at: nat, matched: bool, out: Caps)
    requires Linked(p) && |p.code| > 0 && Stopped(p, ts) && ((at <= |w| && ts == [] && matched) || at > |w|)
    ensures Pending(p, w, slots, ts, at, matched, out) == if matched then Some(out) else None
  {
  }

  /** The calls spent on `lists` thread lists: one per thread of the list
   *  before, one for the new start, and two per mark. */
  ghost function Spent(lists: nat, np: nat): nat { lists * (3 * np + 1) }

  lemma Budget(lists: nat, np: nat, marks: nat, before: nat)
    requires before <= Spent(lists, np) + np + 2 * marks
    ensures before - 2 * marks + 2 * np + 1 <= Spent(lists + 1, np)
  {
    assert (lists + 1) * (3 * np + 1) == lists * (3 * np + 1) + (3 * np + 1);
  }

  lemma TotalBudget(lists: nat, most: nat, np: nat, marks: nat, calls: nat)
    requires lists <= most && marks <= np && calls <= Spent(lists, np) + np + 2 * marks
    ensures calls <= (most + 1) * (3 * np + 1)
  {
    assert lists * (3 * np + 1) <= most * (3 * np + 1);
    assert (most + 1) * (3 * np + 1) == most * (3 * np + 1) + (3 * np + 1);
  }

  /** A new thread at the program's start, behind the others. */
  method StartThread(m: Machine, clist: ThreadList, sp: nat, ghost out: Caps)
    requires L.WellFormed(m.p, m.slots) && Linked(m.p) && |m.p.code| > 0 && sp <= |m.w|
    requires Filling(m, clist, sp) && Stopped(m.p, clist.threads)
    modifies m, clist`n, clist`threads, clist.dense, clist.caps, clist.seen
    ensures clist.Valid() && Stopped(m.p, clist.threads) && CapsFit(clist.threads, m.slots)
    ensures old(Pending(m.p, m.w, m.slots, clist.threads, sp, false, out)) ==
            OrElse(RunAll(m.p, m.w, clist.threads, sp), Search(m.p, m.w, m.slots, sp + 1))
    ensures m.calls + 2 * old(|clist.Marks()|) <= old(m.calls) + 1 + 2 * |m.p.code|
  {
    hide Visit, RunAll, RunThread, RunFrom, Search, Closure, L.WellFormed, Settled, Stopped, Linked, Pending, Ahead,
         Filling, CapsFit, Blanks, OrElse, Consumes, Next, Saved;
    ghost var before := clist.threads;
    FillingParts(m, clist, sp);
    m.cap := Blanks(m.slots);
    Inject(m.p, m.w, m.slots, before, clist.Marks(), sp, out);
    VisitCaps(m.p, m.w, 0, sp, m.cap, clist.Marks());
    m.AddThread(clist, 0, sp);
    CapsJoin(before, clist.threads[|before|..], m.slots);
    SettledStopped(m.p, m.w, clist.threads, clist.Marks(), sp);
  }

  /** One position: a new thread is started behind the others unless a match
   *  is already known, then every thread meets the byte. `stop` reports that
   *  nothing is left to run. */
  method OnePosition(m: Machine, clist: ThreadList, nlist: ThreadList, sp: nat, matched: bool, out: Caps)
    returns (stop: bool, matched': bool, out': Caps)
    requires L.WellFormed(m.p, m.slots) && Linked(m.p) && |m.p.code| > 0 && sp <= |m.w|
    requires Filling(m, clist, sp) && Stopped(m.p, clist.threads) && Separate(clist, nlist)
    requires nlist.Valid() && nlist.np == |m.p.code|
    modifies m, clist`n, clist`threads, clist.dense, clist.caps, clist.seen
    modifies nlist, nlist.dense, nlist.caps, nlist.seen
    ensures matched' && !matched ==> |out'| == m.slots
    ensures matched ==> matched' && (out' == out || |out'| == m.slots)
    ensures clist.Valid() && nlist.Valid()
    ensures stop ==> old(Pending(m.p, m.w, m.slots, clist.threads, sp, matched, out)) == Some(out') && matched'
    ensures !stop ==> Filling(m, nlist, sp + 1) && Stopped(m.p, nlist.threads)
    ensures !stop ==> old(Pending(m.p, m.w, m.slots, clist.threads, sp, matched, out)) ==
                      Pending(m.p, m.w, m.slots, nlist.threads, sp + 1, matched', out')
    ensures m.calls + 2 * old(|clist.Marks()|) <= old(m.calls) + 2 * |m.p.code| + 1 +
                      if stop then 0 else |m.p.code| + 2 * |nlist.Marks()|
  {
    hide Visit, RunAll, RunThread, RunFrom, Search, Closure, L.WellFormed, Settled, Stopped, Linked, Pending, Ahead,
         Filling, CapsFit, Blanks, OrElse, Consumes, Next, Saved;
    FillingParts(m, clist, sp);
    KnownMatch(m.p, m.w, m.slots, clist.threads, sp, out);
    if !matched {
      StartThread(m, clist, sp, out);
    }
    matched', out' := matched, out;
    if clist.n == 0 && matched {
      return true, true, out;
    }
    stop := false;
    nlist.Clear();
    EmptySettled(m.p, m.w, sp + 1);
    CapsNone(m.slots);
    FillingMade(m, nlist, sp + 1);
    var cut := StepAll(m, clist, nlist, sp);
    FillingParts(m, nlist, sp + 1);
    NextList(m.p, m.w, m.slots, clist.threads, sp, cut, nlist.threads, matched, out);
    if cut.Some? {
      matched', out' := true, cut.value;
    }
  }

  lemma KnownMatch(p: Program, w: Text, slots: nat, ts: seq<Thread>, at: nat, out: Caps)
    requires Linked(p) && |p.code| > 0 && Stopped(p, ts) && at <= |w|
    ensures Pending(p, w, slots, ts, at, true, out) == OrElse(RunAll(p, w, ts, at), Some(out))
    ensures ts == [] ==> Pending(p, w, slots, ts, at, true, out) == Some(out)
  {
  }

  /** The leftmost-first search: one pass over the input, a new thread started
   *  behind the others at every position until something matches. */
  method RxSearch(p: Program, slots: nat, w: Text, from: nat) returns (matched: bool, out: Caps, ghost calls: nat)
    requires L.WellFormed(p, slots) && Linked(p) && |p.code| > 0
    ensures matched ==> Search(p, w, slots, from) == Some(out) && |out| == slots
    ensures !matched ==> Search(p, w, slots, from) == None
    ensures from <= |w| ==> calls <= (|w| - from + 2) * (3 * |p.code| + 1)
    ensures from > |w| ==> calls == 0
  {
    hide *;
    var np := |p.code|;
    var m := new Machine(p, w, slots);
    var clist := new ThreadList(np);
    var nlist := new ThreadList(np);
    SeparateSame(clist, nlist);
    clist.Clear();
    matched, out := false, [];
    FirstList(p, w, slots, from);
    FirstFilling(m, clist, from);
    var sp := from;
    while sp <= |w|
      invariant from <= sp && (from <= |w| ==> sp <= |w| + 1) && (from > |w| ==> sp == from)
      invariant fresh(m) && m.p == p && m.w == w && m.slots == slots
      invariant fresh(clist) && fresh(clist.dense) && fresh(clist.caps) && fresh(clist.seen)
      invariant fresh(nlist) && fresh(nlist.dense) && fresh(nlist.caps) && fresh(nlist.seen)
      invariant Separate(clist, nlist) && nlist.Valid() && clist.np == nlist.np == np && |clist.Marks()| <= np
      invariant Filling(m, clist, sp) && Stopped(p, clist.threads)
      invariant Pending(p, w, slots, clist.threads, sp, matched, out) == Search(p, w, slots, from)
      invariant matched ==> |out| == slots
      invariant from <= |w| ==> m.calls <= Spent(sp - from, np) + np + 2 * |clist.Marks()|
      invariant from > |w| ==> m.calls == 0
      decreases |w| + 1 - sp
    {
      var stop;
      Budget(sp - from, np, |clist.Marks()|, m.calls);
      stop, matched, out := OnePosition(m, clist, nlist, sp, matched, out);
      if stop {
        calls := m.calls;
        TotalBudget(sp + 1 - from, |w| + 1 - from, np, 0, m.calls);
        return;
      }
      SeparateSwap(clist, nlist);
      FillingParts(m, nlist, sp + 1);
      clist, nlist := nlist, clist;
      sp := sp + 1;
    }
    SearchEnds(p, w, slots, clist.threads, sp, matched, out);
    calls := m.calls;
    if from <= |w| {
      TotalBudget(sp - from, |w| + 1 - from, np, |clist.Marks()|, m.calls);
    }
  }

  lemma SeparateSame(a: ThreadList, b: ThreadList)
    requires a != b && a.dense != b.dense && a.caps != b.caps && a.seen != b.seen
    requires a.dense as object != b.seen && a.seen as object != b.dense
    ensures Separate(a, b)
  {
  }

  lemma SeparateSwap(a: ThreadList, b: ThreadList)
    requires Separate(a, b)
    ensures Separate(b, a)
  {
  }

  lemma FirstFilling(m: Machine, l: ThreadList, at: nat)
    requires Linked(m.p) && l.Valid() && l.np == |m.p.code| && l.threads == [] && l.Marks() == {}
    ensures Filling(m, l, at) && |l.Marks()| <= |m.p.code|
  {
  }
}
