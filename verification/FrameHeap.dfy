/** The steps that move closures between registers, containers and outside holders. */
module FrameHeap {
  import opened Options
  import opened FrameProtocol
  import opened FrameSafety
  import opened FrameSteps
  import opened FrameRuns

  predicate SameClosures(x: seq<Slot>, y: seq<Slot>) {
    |x| == |y| && forall j | 0 <= j < |x| :: y[j].clo == x[j].clo
  }

  lemma StillReaped(x: seq<Slot>, y: seq<Slot>, i: nat)
    requires SameClosures(x, y) && ReapedTo(x, i)
    ensures ReapedTo(y, i)
  {}

  /** What a change of slots and holders must leave alone for a judge not to notice: the flag is
   *  down, or the frame is not condemned and what only the frame owns stays so (unless its own
   *  function is still emptying it). */
  ghost predicate Unseen(s: State, t: State) {
    || N(s.pcs, Flag) == 0
    || ((!s.garbage || (t.ext == s.ext && SameClosures(s.slots, t.slots)))
        && t.ext.Keys <= s.ext.Keys && |t.slots| == |s.slots| && N(t.pcs, Clr) <= N(s.pcs, Clr)
        && (N(t.pcs, Clr) == 0 ==>
              forall d: Closure | Owned(s.slots, s.ext, d) :: Owned(t.slots, t.ext, d)))
  }

  predicate SameScalars(s: State, t: State) {
    t == s.(pcs := t.pcs, word := t.word, slots := t.slots, ext := t.ext)
  }

  lemma KnownStays(s: State, c0: Word, seen: set<Closure>, known: set<Closure>, t: State)
    requires Watching(s, c0, seen) && Known(s, c0, seen, known) && Watching(t, c0, seen)
    requires N(t.pcs, Clr) == 0 ==> forall d: Closure | Owned(s.slots, s.ext, d) :: Owned(t.slots, t.ext, d)
    ensures Known(t, c0, seen, known)
  {
    hide N, Owned;
  }

  lemma UnseenOk(s: State, b: Agent, p: Pc, t: State)
    requires PcOk(s, b, p) && Doomed(s) && SameScalars(s, t) && Unseen(s, t)
    requires N(s.pcs, Flag) == 0 ==> !Plays(p, Flag)
    ensures PcOk(t, b, p)
  {
    hide N, Owned, Known, ReapedTo, AllOwned, SameClosures;
    if p.Read? || p.Verdict? {
      KnownStays(s, p.c0, p.seen, p.known, t);
    } else if p.Reap? {
      StillReaped(s.slots, t.slots, p.i);
    } else if p.ReapHeld? || p.ReapDead? || p.ReapDrop? || p.ReapUnhold? {
      StillReaped(s.slots, t.slots, p.i + 1);
    }
  }

  lemma AgentsUnseen(s: State, t: State)
    requires Agents(s) && Doomed(s) && SameScalars(s, t) && Unseen(s, t) && t.pcs == s.pcs
    ensures Agents(t)
  {
    hide N, Plays, PcOk, Unseen, Doomed;
    forall b | b in t.pcs ensures PcOk(t, b, t.pcs[b]) {
      Knows(s, b);
      if Plays(s.pcs[b], Flag) { Playing(s.pcs, b, Flag); }
      UnseenOk(s, b, s.pcs[b], t);
    }
  }

  /** Code of the frame runs only while no judge reads. */
  lemma WriterUnjudged(s: State, a: Agent)
    requires Inv(s) && a in s.pcs && (s.pcs[a].Owner? || s.pcs[a].Running? || (s.pcs[a].Plain? && !s.done))
    ensures N(s.pcs, Flag) == 0 && !s.garbage
  {
    hide N, Honest, Agents, Dated, AllOwned;
    if s.pcs[a].Running? {
      Playing(s.pcs, a, Run);
      RunsAreCalls(s.pcs);
    } else if s.pcs[a].Owner? {
      Playing(s.pcs, a, Own);
    }
  }

  /** A closure another holder reaches is not owned, so its frame is not condemned. */
  lemma UnownedSpares(s: State, c: Closure)
    requires Doomed(s) && c in s.ext && !Owned(s.slots, s.ext, c)
    ensures !s.garbage
  {
    hide N, Owned;
    var alive := s.ext.Keys;
    assert c in alive;
  }

  lemma SlotUnowned(s: State, i: nat)
    requires i < |s.slots| && s.slots[i].clo.Some? && s.slots[i].extra > 0
    ensures !Owned(s.slots, s.ext, s.slots[i].clo.value)
  {}

  lemma HeldUnowned(s: State, c: Closure)
    requires HeldOutside(s, c)
    ensures !Owned(s.slots, s.ext, c)
  {}

  lemma LastHeldInside(s: State, c: Closure)
    requires c in s.ext && s.ext[c] > 0
    ensures !Owned(s.slots, s.ext, c)
  {}

  /** Nothing changes that Dated and Excluded and the tally speak of. */
  lemma RestKept(s: State, t: State)
    requires Inv(s) && SameScalars(s, t) && t.pcs == s.pcs
    requires t.word == s.word.(refs := t.word.refs) && t.word.refs - |t.ext| == s.word.refs - |s.ext|
    requires t.word == s.word || (t.word.refs > 0 && !Zero(s.word))
    ensures Tallied(t) && Excluded(t) && Dated(t)
  {
    hide N;
  }

  lemma SameSize<T>(m: map<Closure, T>, c: Closure, v: T)
    ensures |m[c := v]| == |m| + if c in m then 0 else 1
  {
    if c in m {
      assert m[c := v].Keys == m.Keys;
    } else {
      assert m[c := v].Keys == m.Keys + {c};
    }
    assert |m[c := v].Keys| == |m[c := v]| && |m.Keys| == |m|;
  }

  lemma {:induction false} CountAbsent(slots: seq<Slot>, ext: map<Closure, nat>, c: Closure)
    requires c !in ext
    requires forall i | 0 <= i < |slots| :: slots[i].clo.Some? ==> slots[i].clo.value in ext
    ensures Count(slots, c) == 0
  {
    if slots != [] { CountAbsent(slots[1..], ext, c); }
  }

  lemma KeepMakesClosure(s: State, a: Agent, c: Closure, t: State)
    requires Inv(s) && MakesClosure(s, a, c, t)
    ensures Inv(t)
  {
    hide N, Agents, Owned, Dated;
    WriterUnjudged(s, a);
    Live(s, a);
    SameSize(s.ext, c, 1);
    RestKept(s, t);
    AgentsUnseen(s, t);
  }

  /** One more holder outside. */
  lemma HonestMore(s: State, c: Closure, t: State)
    requires Honest(s) && c in s.ext && t.slots == s.slots && t.pcs == s.pcs && t.ext == s.ext[c := s.ext[c] + 1]
    ensures Honest(t)
  {
    hide N, Count;
  }

  lemma OwnedMore(slots: seq<Slot>, ext: map<Closure, nat>, c: Closure, n: nat, d: Closure)
    requires Owned(slots, ext, d) && d != c
    ensures Owned(slots, ext[c := n], d)
  {}

  lemma KeepLoads(s: State, a: Agent, i: nat, t: State)
    requires Inv(s) && Loads(s, a, i, t)
    ensures Inv(t)
  {
    hide N, Agents, Owned, Dated, Honest;
    var c := s.slots[i].clo.value;
    if s.slots[i].extra > 0 {
      SlotUnowned(s, i);
      UnownedSpares(s, c);
    } else {
      WriterUnjudged(s, a);
    }
    KeepMore(s, c, t);
  }

  lemma KeepMore(s: State, c: Closure, t: State)
    requires Inv(s) && c in s.ext && t == s.(ext := s.ext[c := s.ext[c] + 1])
    requires !s.garbage && (N(s.pcs, Flag) == 0 || !Owned(s.slots, s.ext, c))
    ensures Inv(t)
  {
    hide N, Agents, Owned, Dated, Honest;
    SameSize(s.ext, c, s.ext[c] + 1);
    RestKept(s, t);
    HonestMore(s, c, t);
    if N(s.pcs, Flag) != 0 {
      forall d: Closure | Owned(s.slots, s.ext, d) ensures Owned(t.slots, t.ext, d) {
        OwnedMore(s.slots, s.ext, c, s.ext[c] + 1, d);
      }
      assert t.ext.Keys == s.ext.Keys;
    }
    AgentsUnseen(s, t);
  }

  lemma KeepShares(s: State, c: Closure, t: State)
    requires Inv(s) && Shares(s, c, t)
    ensures Inv(t)
  {
    hide N, Agents, Owned, Dated, Honest;
    HolderLives(s, c);
    HeldUnowned(s, c);
    KeepMore(s, c, t);
  }

  lemma OwnedElsewhere(slots: seq<Slot>, ext: map<Closure, nat>, i: nat, v: Slot, c: Closure, n: nat, d: Closure)
    requires i < |slots| && Owned(slots, ext, d) && d != c
    requires slots[i].clo != Some(d) && v.clo != Some(d)
    ensures Owned(slots[i := v], ext[c := n], d)
  {
    CountUpdated(slots, i, v, d);
  }

  lemma HonestPut(s: State, i: nat, c: Closure, t: State)
    requires Honest(s) && i < |s.slots| && s.slots[i].clo.None? && HeldOutside(s, c)
    requires t == s.(ext := s.ext[c := s.ext[c] - 1], slots := s.slots[i := s.slots[i].(clo := Some(c))])
    ensures Honest(t)
  {
    hide N, Count;
    CountsUpdated(s.slots, i, t.slots[i]);
  }

  lemma KeepPuts(s: State, a: Agent, i: nat, c: Closure, t: State)
    requires Inv(s) && Puts(s, a, i, c, t)
    ensures Inv(t)
  {
    hide N, Agents, Owned, Dated, Honest;
    HolderLives(s, c);
    HeldUnowned(s, c);
    SameSize(s.ext, c, s.ext[c] - 1);
    RestKept(s, t);
    HonestPut(s, i, c, t);
    forall d: Closure | Owned(s.slots, s.ext, d) ensures Owned(t.slots, t.ext, d) {
      OwnedElsewhere(s.slots, s.ext, i, t.slots[i], c, s.ext[c] - 1, d);
    }
    assert t.ext.Keys == s.ext.Keys;
    AgentsUnseen(s, t);
  }

  lemma HonestTake(s: State, i: nat, t: State)
    requires Honest(s) && i < |s.slots| && s.slots[i].clo.Some?
    requires var c := s.slots[i].clo.value;
      c in s.ext && t == s.(ext := s.ext[c := s.ext[c] + 1], slots := s.slots[i := s.slots[i].(clo := None)])
    ensures Honest(t)
  {
    hide N, Count;
    CountsUpdated(s.slots, i, t.slots[i]);
  }

  lemma KeepTakes(s: State, a: Agent, i: nat, t: State)
    requires Inv(s) && Takes(s, a, i, t)
    ensures Inv(t)
  {
    hide N, Agents, Owned, Dated, Honest;
    var c := s.slots[i].clo.value;
    TakerSpares(s, a, i);
    SameSize(s.ext, c, s.ext[c] + 1);
    RestKept(s, t);
    HonestTake(s, i, t);
    if N(s.pcs, Flag) != 0 && N(s.pcs, Clr) == 0 {
      forall d: Closure | Owned(s.slots, s.ext, d) ensures Owned(t.slots, t.ext, d) {
        OwnedElsewhere(s.slots, s.ext, i, t.slots[i], c, s.ext[c] + 1, d);
      }
    }
    assert t.ext.Keys == s.ext.Keys;
    AgentsUnseen(s, t);
  }

  lemma TakerSpares(s: State, a: Agent, i: nat)
    requires Inv(s) && a in s.pcs && i < |s.slots| && s.slots[i].clo.Some? && s.slots[i].clo.value in s.ext
    requires MayWrite(s, a, i) || s.pcs[a].Clearing?
    ensures !s.garbage
    ensures N(s.pcs, Flag) != 0 && N(s.pcs, Clr) == 0 ==> !Owned(s.slots, s.ext, s.slots[i].clo.value)
  {
    hide N, Agents, Owned, Dated, Honest, AllOwned;
    if s.slots[i].extra > 0 {
      SlotUnowned(s, i);
      UnownedSpares(s, s.slots[i].clo.value);
    } else if s.pcs[a].Clearing? {
      Playing(s.pcs, a, Clr);
      Outsider(s, a);
    } else {
      WriterUnjudged(s, a);
    }
  }

  lemma OwnedContained(slots: seq<Slot>, ext: map<Closure, nat>, i: nat, v: Slot, d: Closure)
    requires i < |slots| && Owned(slots, ext, d) && v.clo == slots[i].clo && slots[i].clo != Some(d)
    ensures Owned(slots[i := v], ext, d)
  {
    CountUpdated(slots, i, v, d);
  }

  lemma HonestContained(s: State, i: nat, t: State)
    requires Honest(s) && i < |s.slots| && t == s.(slots := t.slots)
    requires exists v: Slot :: v.clo == s.slots[i].clo && t.slots == s.slots[i := v]
    ensures Honest(t)
  {
    hide N, Count;
    CountsUpdated(s.slots, i, t.slots[i]);
  }

  lemma KeepContains(s: State, a: Agent, i: nat, extra: nat, t: State)
    requires Inv(s) && Contains(s, a, i, extra, t)
    ensures Inv(t)
  {
    hide N, Agents, Owned, Dated, Honest;
    RestKept(s, t);
    HonestContained(s, i, t);
    WriterOrUnowned(s, a, i);
    if N(s.pcs, Flag) != 0 || s.garbage {
      forall d: Closure | Owned(s.slots, s.ext, d) ensures Owned(t.slots, t.ext, d) {
        OwnedContained(s.slots, s.ext, i, t.slots[i], d);
      }
    }
    AgentsUnseen(s, t);
  }

  lemma WriterOrUnowned(s: State, a: Agent, i: nat)
    requires Inv(s) && MayWrite(s, a, i)
    ensures (N(s.pcs, Flag) == 0 && !s.garbage)
         || s.slots[i].clo.None? || !Owned(s.slots, s.ext, s.slots[i].clo.value)
  {
    hide N, Agents, Owned, Dated, Honest;
    if s.slots[i].extra > 0 {
      if s.slots[i].clo.Some? { SlotUnowned(s, i); }
    } else {
      WriterUnjudged(s, a);
    }
  }

  /* -------------------------------------------------------- the last holders */

  lemma RemovedSize<T>(m: map<Closure, T>, c: Closure)
    requires c in m
    ensures |m - {c}| == |m| - 1
  {
    assert (m - {c}).Keys == m.Keys - {c};
    assert |(m - {c}).Keys| == |m - {c}| && |m.Keys| == |m|;
  }

  lemma OwnedAfter(slots: seq<Slot>, ext: map<Closure, nat>, c: Closure, d: Closure)
    requires Owned(slots, ext, d) && d != c
    ensures Owned(slots, ext - {c}, d)
  {}

  /** One holder fewer, or none. */
  lemma HonestDrop(s: State, a: Agent, t: State)
    requires Honest(s) && DropsClosure(s, a, t)
    ensures Honest(t)
  {
    hide N, Count;
    Moves(s.pcs, a, t.pcs[a]);
    var c := s.pcs[a].c;
    forall i | 0 <= i < |t.slots| ensures t.slots[i].clo.Some? ==> t.slots[i].clo.value in t.ext {
      if t.slots[i].clo == Some(c) { CountPositive(s.slots, i, c); }
    }
  }

  lemma AgentsDrop(s: State, a: Agent, t: State)
    requires Agents(s) && Tallied(s) && Doomed(s) && !s.garbage && DropsClosure(s, a, t)
    ensures Agents(t)
  {
    hide N, PcOk, Unseen, Doomed, Owned;
    var c := s.pcs[a].c;
    LastHeldInside(s, c);
    assert N(t.pcs, Clr) <= N(s.pcs, Clr) by { Moved(s.pcs, a, t.pcs[a], Clr); }
    assert t.ext.Keys <= s.ext.Keys;
    forall d: Closure | Owned(s.slots, s.ext, d) ensures Owned(t.slots, t.ext, d) {
      if Rc(s, c) == 1 { OwnedAfter(s.slots, s.ext, c, d); } else { OwnedMore(s.slots, s.ext, c, s.ext[c] - 1, d); }
    }
    assert Unseen(s, t) by { MakeUnseen(s, t); }
    forall b | b in t.pcs ensures PcOk(t, b, t.pcs[b]) {
      Knows(s, b);
      if b == a {
        DroppedOk(s, a, t);
      } else {
        if Plays(s.pcs[b], Flag) { Playing(s.pcs, b, Flag); }
        UnseenOk(s, b, s.pcs[b], t);
      }
    }
  }

  lemma MakeUnseen(s: State, t: State)
    requires !s.garbage && t.ext.Keys <= s.ext.Keys && |t.slots| == |s.slots| && N(t.pcs, Clr) <= N(s.pcs, Clr)
    requires forall d: Closure | Owned(s.slots, s.ext, d) :: Owned(t.slots, t.ext, d)
    ensures Unseen(s, t)
  {
    hide N, Owned;
  }

  lemma DroppedOk(s: State, a: Agent, t: State)
    requires DropsClosure(s, a, t) && PcOk(s, a, s.pcs[a])
    ensures PcOk(t, a, t.pcs[a])
  {
    hide N;
  }

  /** vl_release's decrement pays with the closure's own reference when it was the last. */
  lemma ReleasedWorth(left: nat, q: Pc, now: nat)
    requires q.RelHeld? || q.RelUnheld?
    ensures var p := Released(left, q.RelHeld?, now);
      && B(p, Ref) == B(q, Ref) + (if left == 0 then 1 else 0)
      && B(p, Hold) == B(q, Hold) && B(p, Second) == B(q, Second)
      && B(p, Act) == B(q, Act) && B(p, Flag) == B(q, Flag) && B(p, Own) == B(q, Own)
  {}

  lemma DropPaid(s: State, a: Agent, t: State)
    requires Tallied(s) && DropsClosure(s, a, t)
    ensures Paid(s, s.pcs[a], t.pcs[a], t)
  {
    hide N, Count, Plays, Released;
    var c := s.pcs[a].c;
    ReleasedWorth(Rc(s, c) - 1, s.pcs[a], s.begun);
    if Rc(s, c) == 1 { RemovedSize(s.ext, c); } else { SameSize(s.ext, c, s.ext[c] - 1); }
  }

  lemma DropOwes(s: State, a: Agent, t: State)
    requires DropsClosure(s, a, t)
    ensures StillOwes(s.pcs[a], t.pcs[a]) && !t.pcs[a].Running?
  {
    hide N, Rc;
  }

  lemma DropKeepsRest(s: State, a: Agent, t: State)
    requires DropsClosure(s, a, t)
    ensures SameScalars(s, t) && t.word == s.word && t.slots == s.slots && a in s.pcs && t.pcs == s.pcs[a := t.pcs[a]]
    ensures (s.pcs[a].RelUnheld? || s.pcs[a].RelHeld?) && s.pcs[a].c in s.ext && s.ext[s.pcs[a].c] > 0
  {
    hide N, Rc;
  }

  lemma KeepDropsClosure(s: State, a: Agent, t: State)
    requires Inv(s) && DropsClosure(s, a, t)
    ensures Inv(t)
  {
    hide N, Agents, Owned, Owed, Honest, AllOwned, DropsClosure, Paid, StillOwes, Tallied, Excluded;
    DropKeepsRest(s, a, t);
    LastHeldInside(s, s.pcs[a].c);
    UnownedSpares(s, s.pcs[a].c);
    HonestDrop(s, a, t);
    AgentsDrop(s, a, t);
    DropPaid(s, a, t);
    DropOwes(s, a, t);
    TallyMoved(s, a, t.pcs[a], t);
    assert s.word.judging ==> s.done by { FlagDone(s); }
    ExcludedMoved(s, a, t.pcs[a], t);
    OwedMoved(s, a, t.pcs[a], t);
  }

  lemma FlagDone(s: State)
    requires Excluded(s)
    ensures s.word.judging ==> s.done
  {}

  /* -------------------------------------------------------- reaping one slot */

  lemma HonestReap(s: State, a: Agent, i: nat, p: Pc, t: State)
    requires Honest(s) && a in s.pcs && Counts(s, i) && s.pcs[a].Reap? && (p.Reap? || p.ReapHeld?)
    requires t.pcs == s.pcs[a := p] && t.slots == Emptied(s, i).slots && t.ext == Emptied(s, i).ext
    ensures Honest(t)
  {
    hide N, Count;
    var c := s.slots[i].clo.value;
    Moves(s.pcs, a, p);
    CountsUpdated(s.slots, i, t.slots[i]);
    CountPositive(s.slots, i, c);
  }

  lemma DoomedReap(s: State, a: Agent, i: nat, p: Pc, t: State)
    requires Honest(s) && Doomed(s) && s.garbage && a in s.pcs && Counts(s, i) && s.pcs[a].Reap?
    requires p.Reap? || p.ReapHeld?
    requires t.pcs == s.pcs[a := p] && t.slots == Emptied(s, i).slots && t.ext == Emptied(s, i).ext
    requires t.garbage && t.done == s.done && t.word.acts == s.word.acts
    ensures Doomed(t)
  {
    hide N, Owned, Honest;
    var c := s.slots[i].clo.value;
    Moves(s.pcs, a, p);
    Playing(t.pcs, a, Sweeping);
    CountedIsOwned(s, i);
    forall d | d in t.ext.Keys ensures Owned(t.slots, t.ext, d) {
      assert d in s.ext.Keys;
      OwnedApart(s.slots, s.ext, i, c, d);
    }
  }

  lemma OwnedApart(slots: seq<Slot>, ext: map<Closure, nat>, i: nat, c: Closure, d: Closure)
    requires i < |slots| && slots[i].clo == Some(c) && Owned(slots, ext, d) && d != c
    ensures Owned(slots[i := slots[i].(clo := None)], ext - {c}, d)
  {
    CountUpdated(slots, i, slots[i].(clo := None), d);
  }

  lemma ReapedFurther(slots: seq<Slot>, i: nat)
    requires ReapedTo(slots, i) && i < |slots|
    ensures ReapedTo(slots[i := slots[i].(clo := None)], i + 1)
  {}

  lemma ReapsSlotPaid(s: State, a: Agent, t: State)
    requires ReapsSlot(s, a, t) && !Zero(s.word) && s.freed == 0 && |t.ext| == |s.ext| - 1
    ensures Paid(s, s.pcs[a], t.pcs[a], t)
  {
    hide Counts;
  }

  lemma KeepReapsSlot(s: State, a: Agent, t: State)
    requires Inv(s) && ReapsSlot(s, a, t)
    ensures Inv(t)
  {
    hide N, Agents, Owned, Owed, Honest, AllOwned, ReapedTo, Doomed;
    var i, p := s.pcs[a].i, t.pcs[a];
    Live(s, a);
    Knows(s, a);
    ReaperCondemned(s);
    OthersUnflagged(s, a);
    RemovedSize(s.ext, s.slots[i].clo.value);
    HonestReap(s, a, i, p, t);
    DoomedReap(s, a, i, p, t);
    ReapedFurther(s.slots, i);
    ReapsSlotPaid(s, a, t);
    hide Paid;
    TallyMoved(s, a, p, t);
    ExcludedMoved(s, a, p, t);
    AgentsUnflagged(s, a, p, t);
    OwedMoved(s, a, p, t);
  }

  lemma ReapsCratePaid(s: State, a: Agent, t: State)
    requires ReapsCrate(s, a, t) && !Zero(s.word) && s.freed == 0 && |t.ext| == |s.ext| - 1
    ensures Paid(s, s.pcs[a], t.pcs[a], t)
  {
    hide Counts;
    OneMore(s.crated, a.thread);
  }

  lemma KeepReapsCrate(s: State, a: Agent, t: State)
    requires Inv(s) && ReapsCrate(s, a, t)
    ensures Inv(t)
  {
    hide N, Agents, Owned, Owed, Honest, AllOwned, ReapedTo, Doomed;
    var i, p := s.pcs[a].i, t.pcs[a];
    Live(s, a);
    Knows(s, a);
    ReaperCondemned(s);
    OthersUnflagged(s, a);
    RemovedSize(s.ext, s.slots[i].clo.value);
    HonestReap(s, a, i, p, t);
    DoomedReap(s, a, i, p, t);
    ReapedFurther(s.slots, i);
    ReapsCratePaid(s, a, t);
    OneMore(s.crated, a.thread);
    hide Paid;
    TallyMoved(s, a, p, t);
    ExcludedMoved(s, a, p, t);
    AgentsUnflagged(s, a, p, t);
    OwedMoved(s, a, p, t);
  }
}
