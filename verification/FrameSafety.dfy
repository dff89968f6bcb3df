/** What every step of the frame-judging protocol keeps, and what that means over whole runs. */
module FrameSafety {
  import opened Options
  import opened FrameProtocol

  /* -------------------------------------------------------- the invariant */

  /** The word counts exactly the agents and closures that share in it; of the closures, those held
   *  in the registers or outside, those parked dead, and those in a dead container. */
  ghost predicate Tallied(s: State) {
    && s.word.refs == |s.ext| + |s.parked| + |s.crated| + N(s.pcs, Ref)
    && s.word.acts == N(s.pcs, Act)
    && s.word.holds == N(s.pcs, Hold) + N(s.pcs, Second) + s.deferred
    && N(s.pcs, Flag) == (if s.word.judging then 1 else 0)
    && N(s.pcs, Own) == (if s.done then 0 else 1)
    && s.freed == (if Zero(s.word) then 1 else 0)
  }

  /** While the flag is up no call is past frame_enter. */
  ghost predicate Excluded(s: State) {
    (s.word.judging ==> N(s.pcs, Run) == 0) && (s.word.judging ==> s.done)
  }

  /** Closure counts are honest: each closure has a holder, each slot's closure is alive. */
  ghost predicate Honest(s: State) {
    && (forall i | 0 <= i < |s.slots| :: s.slots[i].clo.Some? ==> s.slots[i].clo.value in s.ext)
    && (forall c | c in s.ext :: Rc(s, c) >= 1)
    && (forall c: Closure :: N(s.pcs, Letting(c)) <= (if c in s.ext then s.ext[c] else 0))
  }

  /** Only the frame holds closure c, in one slot nothing else reaches. */
  ghost predicate Owned(slots: seq<Slot>, ext: map<Closure, nat>, c: Closure) {
    && c in ext && ext[c] == 0 && Count(slots, c) == 1
    && (forall i | 0 <= i < |slots| :: slots[i].clo == Some(c) ==> slots[i].extra == 0)
  }

  ghost predicate AllOwned(slots: seq<Slot>, ext: map<Closure, nat>, k: set<Closure>) {
    forall c | c in k :: Owned(slots, ext, c)
  }

  /** What a judge with the flag up knows, c0 being the word it raised the flag on. */
  ghost predicate Watching(s: State, c0: Word, seen: set<Closure>) {
    && c0.acts == 0 && !c0.judging
    && s.ext.Keys <= seen && |seen| <= c0.refs
    && (|seen| == c0.refs ==> N(s.pcs, Clr) == 0)
  }

  ghost predicate Known(s: State, c0: Word, seen: set<Closure>, known: set<Closure>) {
    known <= seen && (|seen| == c0.refs ==> AllOwned(s.slots, s.ext, known))
  }

  ghost predicate ReapedTo(slots: seq<Slot>, i: nat) {
    i <= |slots| && forall j | 0 <= j < i :: slots[j].clo == None
  }

  ghost predicate PcOk(s: State, a: Agent, p: Pc) {
    (AfterDone(p) || p.RelSeen? || p.RelHeld? || p.Clearing? ==> s.done)
    && match p
       case Enter(b) => b <= s.begun
       case ReaperTest(b) => b <= s.begun
       case Top(b) => b <= s.begun
       case Look(b) => b <= s.begun
       case Deferring(b) => b <= s.begun
       case Store(b) => b <= s.begun
       case Check(b) => b <= s.lastStore
       case Swap(b, c0) => b <= s.begun && c0.acts == 0 && !c0.judging
       case Clear(b, c0, seen) => b <= s.begun && Watching(s, c0, seen)
       case Read(b, c0, seen, i, known) =>
         b <= s.begun && Watching(s, c0, seen) && Known(s, c0, seen, known) && i <= |s.slots|
       case Verdict(b, c0, seen, known) =>
         b <= s.begun && Watching(s, c0, seen) && Known(s, c0, seen, known)
       case Void(b) => b <= s.begun
       case Exchange(b) => b <= s.begun
       case ReapStart => s.garbage
       case Reap(i) => s.reaper == Some(a.thread) && ReapedTo(s.slots, i)
       case ReapHeld(i) => s.reaper == Some(a.thread) && ReapedTo(s.slots, i + 1)
       case ReapDead(i) => s.reaper == Some(a.thread) && ReapedTo(s.slots, i + 1)
       case ReapDrop(i) => s.reaper == Some(a.thread) && ReapedTo(s.slots, i + 1)
       case ReapUnhold(i) => s.reaper == Some(a.thread) && ReapedTo(s.slots, i + 1)
       case ReapEnd => s.reaper == Some(a.thread) && s.ext == map[]
       case ReapFlag => s.garbage && s.ext == map[]
       case _ => true
  }

  ghost predicate Agents(s: State) {
    forall a | a in s.pcs :: PcOk(s, a, s.pcs[a])
  }

  /** Only a thread inside obj_free has a worklist. */
  ghost predicate Shelved(freeing: set<nat>, parked: multiset<nat>, crated: multiset<nat>) {
    forall h | h in parked || h in crated :: h in freeing
  }

  /** Once a garbage verdict stood, nothing outside the frame can reach it: no reference is there to
   *  be used, and the closures are in its registers alone, until the reaper has emptied them. */
  ghost predicate Doomed(s: State) {
    && (s.reaper.Some? ==> s.garbage)
    && (s.garbage ==>
          && s.done && s.word.acts == 0 && N(s.pcs, User) == 0 && AllOwned(s.slots, s.ext, s.ext.Keys)
          && (s.ext == map[] || N(s.pcs, Sweeping) > 0))
  }

  /** Some judgement after the last store of `pending` is done, or still owed by somebody. */
  ghost predicate Owed(s: State) {
    || s.lastStore < s.stood || s.garbage || s.freed > 0 || s.deferred > 0
    || N(s.pcs, Active) > 0
    || (N(s.pcs, Reading) > 0 && (s.lastStore < s.begun || s.pending))
    || (N(s.pcs, Taking) > 0 && s.pending)
    || (N(s.pcs, Checking) > 0 && !s.word.judging)
  }

  ghost predicate Dated(s: State) {
    && s.left <= s.lastStore <= s.begun && s.stood <= s.begun
    && (!s.done ==> s.lastStore == -1)
    && Owed(s)
  }

  ghost predicate Inv(s: State) {
    && Tallied(s) && Excluded(s) && Honest(s) && Agents(s) && Doomed(s) && Dated(s)
    && Shelved(s.freeing, s.parked, s.crated)
  }

  /* -------------------------------------------------------- counting */

  function Others(pcs: map<Agent, Pc>, a: Agent, r: Role): set<Agent> {
    set b | b in pcs && b != a && Plays(pcs[b], r)
  }

  lemma Split(pcs: map<Agent, Pc>, a: Agent, r: Role)
    requires a in pcs
    ensures N(pcs, r) == |Others(pcs, a, r)| + (if Plays(pcs[a], r) then 1 else 0)
  {
    hide Plays;
    if Plays(pcs[a], r) {
      assert Who(pcs, r) == Others(pcs, a, r) + {a};
    } else {
      assert Who(pcs, r) == Others(pcs, a, r);
    }
  }

  lemma Moved(pcs: map<Agent, Pc>, a: Agent, p: Pc, r: Role)
    requires a in pcs
    ensures N(pcs[a := p], r) == N(pcs, r) - (if Plays(pcs[a], r) then 1 else 0) + (if Plays(p, r) then 1 else 0)
  {
    hide Plays, N;
    Split(pcs, a, r);
    Split(pcs[a := p], a, r);
    assert Others(pcs[a := p], a, r) == Others(pcs, a, r);
  }

  /** Every role's count after agent a moves from where it is to p. */
  lemma Moves(pcs: map<Agent, Pc>, a: Agent, p: Pc)
    requires a in pcs
    ensures forall r :: 
      N(pcs[a := p], r) == N(pcs, r) - (if Plays(pcs[a], r) then 1 else 0) + (if Plays(p, r) then 1 else 0)
  {
    hide *;
    forall r ensures N(pcs[a := p], r) == N(pcs, r) - (if Plays(pcs[a], r) then 1 else 0)
      + (if Plays(p, r) then 1 else 0) {
      Moved(pcs, a, p, r);
    }
  }

  lemma Playing(pcs: map<Agent, Pc>, a: Agent, r: Role)
    requires a in pcs && Plays(pcs[a], r)
    ensures N(pcs, r) >= 1
    ensures N(pcs, r) == 1 ==> forall b | b in pcs && b != a :: !Plays(pcs[b], r)
  {
    hide Plays;
    var w := Who(pcs, r);
    assert a in w;
    if |w| == 1 {
      forall b | b in pcs && b != a ensures !Plays(pcs[b], r) {
        if Plays(pcs[b], r) {
          assert {a, b} <= w;
          assert |w| >= |{a, b}| by { Subset({a, b}, w); }
        }
      }
    }
  }

  lemma {:induction false} Subset<T>(x: set<T>, y: set<T>)
    requires x <= y
    ensures |x| <= |y|
    ensures |x| == |y| ==> x == y
  {
    if x == {} {
      if |y| == 0 { assert y == {}; }
    } else {
      var e :| e in x;
      Subset(x - {e}, y - {e});
      if |x| == |y| { assert x == (x - {e}) + {e} == (y - {e}) + {e} == y; }
    }
  }

  lemma {:induction false} CountUpdated(slots: seq<Slot>, i: nat, v: Slot, c: Closure)
    requires i < |slots|
    ensures Count(slots[i := v], c)
        == Count(slots, c) - (if slots[i].clo == Some(c) then 1 else 0) + (if v.clo == Some(c) then 1 else 0)
  {
    if i == 0 {
      assert slots[i := v][1..] == slots[1..];
    } else {
      assert slots[i := v][1..] == slots[1..][i - 1 := v];
      CountUpdated(slots[1..], i - 1, v, c);
    }
  }

  lemma CountsUpdated(slots: seq<Slot>, i: nat, v: Slot)
    requires i < |slots|
    ensures forall c: Closure :: 
      Count(slots[i := v], c) == Count(slots, c) - (if slots[i].clo == Some(c) then 1 else 0)
        + (if v.clo == Some(c) then 1 else 0)
  {
    hide *;
    forall c: Closure ensures Count(slots[i := v], c)
        == Count(slots, c) - (if slots[i].clo == Some(c) then 1 else 0) + (if v.clo == Some(c) then 1 else 0) {
      CountUpdated(slots, i, v, c);
    }
  }

  lemma {:induction false} CountPositive(slots: seq<Slot>, i: nat, c: Closure)
    requires i < |slots| && slots[i].clo == Some(c)
    ensures Count(slots, c) >= 1
    ensures Count(slots, c) == 1 ==> forall j | 0 <= j < |slots| && j != i :: slots[j].clo != Some(c)
  {
    CountsUpdated(slots, i, Slot(None, 0));
    var rest := slots[i := Slot(None, 0)];
    if Count(slots, c) == 1 {
      forall j | 0 <= j < |slots| && j != i ensures slots[j].clo != Some(c) {
        if slots[j].clo == Some(c) {
          CountPositiveAt(rest, j, c);
        }
      }
    } else {
      CountPositiveAt(slots, i, c);
    }
  }

  lemma {:induction false} CountPositiveAt(slots: seq<Slot>, i: nat, c: Closure)
    requires i < |slots| && slots[i].clo == Some(c)
    ensures Count(slots, c) >= 1
  {
    if i > 0 { CountPositiveAt(slots[1..], i - 1, c); }
  }
}
