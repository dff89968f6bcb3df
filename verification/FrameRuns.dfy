/** The steps that change more than the word: what they do to registers, holders and history;
 *  then the theorems over whole runs. */
module FrameRuns {
  import opened Options
  import opened FrameProtocol
  import opened FrameSafety
  import opened FrameSteps

  /** Whatever agent b knows outlives a change it is not looking at. */
  lemma StillOk(s: State, b: Agent, p: Pc, t: State)
    requires PcOk(s, b, p) && !Plays(p, Flag)
    requires (s.done ==> t.done) && s.begun <= t.begun && s.lastStore <= t.lastStore
    ensures PcOk(t, b, p)
  {
    hide N;
  }

  lemma AgentsUnflagged(s: State, a: Agent, p: Pc, t: State)
    requires Agents(s) && a in s.pcs && t.pcs == s.pcs[a := p] && PcOk(t, a, p)
    requires forall b | b in s.pcs && b != a :: !Plays(s.pcs[b], Flag)
    requires (s.done ==> t.done) && s.begun <= t.begun && s.lastStore <= t.lastStore
    ensures Agents(t)
  {
    hide N, Plays, PcOk;
    forall b | b in t.pcs && b != a ensures PcOk(t, b, t.pcs[b]) {
      Knows(s, b);
      StillOk(s, b, s.pcs[b], t);
    }
  }

  /* -------------------------------------------------------- history */

  lemma FlagOwes(pcs: map<Agent, Pc>)
    ensures N(pcs, Flag) <= N(pcs, Active) + N(pcs, Reading)
  {
    var both := Who(pcs, Active) + Who(pcs, Reading);
    assert Who(pcs, Flag) <= both;
    Subset(Who(pcs, Flag), both);
  }

  lemma KeepSetsPending(s: State, a: Agent, t: State)
    requires Inv(s) && SetsPending(s, a, t)
    ensures Inv(t)
  {
    hide N, Honest, Agents, Doomed;
    Live(s, a);
    Knows(s, a);
    NoCalls(s);
    var p := t.pcs[a];
    TallyMoved(s, a, p, t);
    ExcludedMoved(s, a, p, t);
    HonestMoved(s, a, p, t);
    AgentsMoved(s, a, p, t);
    DoomedMoved(s, a, p, t);
    FlagOwes(t.pcs);
    Playing(t.pcs, a, Checking);
  }

  lemma KeepLeavesIt(s: State, a: Agent, t: State)
    requires Inv(s) && LeavesIt(s, a, t)
    ensures Inv(t)
  {
    hide N, Honest, Agents, Doomed;
    Live(s, a);
    Knows(s, a);
    NoCalls(s);
    var p := t.pcs[a];
    TallyMoved(s, a, p, t);
    ExcludedMoved(s, a, p, t);
    HonestMoved(s, a, p, t);
    AgentsMoved(s, a, p, t);
    DoomedMoved(s, a, p, t);
    Moves(s.pcs, a, p);
  }

  lemma TakesPendingPaid(s: State, a: Agent, t: State)
    requires TakesPending(s, a, t) && !Zero(s.word) && s.freed == 0
    ensures Paid(s, s.pcs[a], t.pcs[a], t)
  {}

  lemma TakesPendingDated(s: State, a: Agent, t: State)
    requires Dated(s) && TakesPending(s, a, t) && (s.done ==> t.done)
    ensures Dated(t)
  {
    hide N;
    Moves(s.pcs, a, t.pcs[a]);
  }

  lemma KeepTakesPending(s: State, a: Agent, t: State)
    requires Inv(s) && TakesPending(s, a, t)
    ensures Inv(t)
  {
    hide N, Honest, Agents, Doomed, Tallied, Excluded, Dated, Paid;
    AtWork(s, a);
    var p := t.pcs[a];
    TakesPendingPaid(s, a, t);
    TallyMoved(s, a, p, t);
    ExcludedMoved(s, a, p, t);
    HonestMoved(s, a, p, t);
    AgentsMoved(s, a, p, t);
    DoomedMoved(s, a, p, t);
    TakesPendingDated(s, a, t);
  }

  lemma NothingKnown(s: State, c0: Word, seen: set<Closure>)
    ensures Known(s, c0, seen, {})
  {}

  lemma KeepBeginsReading(s: State, a: Agent, t: State)
    requires Inv(s) && BeginsReading(s, a, t)
    ensures Inv(t)
  {
    hide N, Honest, Agents, Doomed, Known;
    Live(s, a);
    Knows(s, a);
    NoCalls(s);
    var p := t.pcs[a];
    Moves(s.pcs, a, p);
    NothingKnown(t, p.c0, p.seen);
    TallyMoved(s, a, p, t);
    ExcludedMoved(s, a, p, t);
    HonestMoved(s, a, p, t);
    AgentsMoved(s, a, p, t);
    DoomedMoved(s, a, p, t);
    Playing(t.pcs, a, Reading);
  }

  lemma KeepAcquits(s: State, a: Agent, t: State)
    requires Inv(s) && Acquits(s, a, t)
    ensures Inv(t)
  {
    hide N, Honest, Agents, Doomed, AllOwned;
    Live(s, a);
    Knows(s, a);
    NoCalls(s);
    var p := t.pcs[a];
    Moves(s.pcs, a, p);
    Playing(s.pcs, a, Hold);
    TallyMoved(s, a, p, t);
    ExcludedMoved(s, a, p, t);
    HonestMoved(s, a, p, t);
    AgentsMoved(s, a, p, t);
    DoomedMoved(s, a, p, t);
    Playing(t.pcs, a, Taking);
    assert s.lastStore == s.begun ==> N(s.pcs, Active) == N(t.pcs, Active);
    assert s.lastStore == s.begun ==> N(s.pcs, Taking) <= N(t.pcs, Taking);
    assert s.lastStore == s.begun ==> N(s.pcs, Checking) <= N(t.pcs, Checking);
    assert s.lastStore == s.begun ==> Owed(t);
    assert Owed(t);
  }

  /* -------------------------------------------------------- the end of the function */

  lemma RunningHasDone(s: State, b: Agent)
    requires Agents(s) && b in s.pcs && !s.done
    ensures !Plays(s.pcs[b], Flag)
  {
    Knows(s, b);
  }

  lemma KeepFinishes(s: State, a: Agent, t: State)
    requires Inv(s) && Finishes(s, a, t)
    ensures Inv(t)
  {
    hide N, Honest, Agents, Owed;
    Live(s, a);
    Playing(s.pcs, a, Own);
    forall b | b in s.pcs && b != a ensures !Plays(s.pcs[b], Flag) { RunningHasDone(s, b); }
    var p := t.pcs[a];
    TallyMoved(s, a, p, t);
    ExcludedMoved(s, a, p, t);
    HonestMoved(s, a, p, t);
    AgentsUnflagged(s, a, p, t);
    DoomedMoved(s, a, p, t);
    OwedMoved(s, a, p, t);
  }

  /* -------------------------------------------------------- the verdict */

  lemma AliveSet(s: State, a: Agent)
    requires Tallied(s) && a in s.pcs && s.pcs[a].Verdict? && Watching(s, s.pcs[a].c0, s.pcs[a].seen)
    requires s.word == s.pcs[a].c0.(judging := true)
    requires Known(s, s.pcs[a].c0, s.pcs[a].seen, s.pcs[a].known) && FindsGarbage(s.pcs[a])
    ensures s.ext.Keys == s.pcs[a].known && N(s.pcs, Ref) == 0 && Stowed(s) == 0
    ensures AllOwned(s.slots, s.ext, s.ext.Keys)
  {
    hide N, Owned;
    var p := s.pcs[a];
    Subset(p.known, p.seen);
    forall c | c in p.known ensures c in s.ext.Keys {
      assert Owned(s.slots, s.ext, c);
      OwnedLives(s, c);
    }
    assert s.ext.Keys == p.known;
    assert |s.ext.Keys| == |s.ext|;
  }

  /** A verdict of garbage that survives the second compare-and-swap is right, whatever happened
   *  between the two: every counted reference is a closure only the frame's registers own. */
  lemma VerdictIsSound(s: State, a: Agent, t: State)
    requires Inv(s) && Condemns(s, a, t)
    ensures s.word.refs == |s.ext| && N(s.pcs, Ref) == 0 && N(s.pcs, Act) == 0 && Stowed(s) == 0
    ensures forall c | c in s.ext :: Owned(s.slots, s.ext, c) && !HeldOutside(s, c)
  {
    hide N, Owned, Honest, Excluded, Doomed, Dated, Agents;
    Knows(s, a);
    AliveSet(s, a);
    forall c | c in s.ext ensures Owned(s.slots, s.ext, c) && !HeldOutside(s, c) {
      assert c in s.ext.Keys;
      OwnedHeldInside(s, c);
    }
  }

  lemma OwnedHeldInside(s: State, c: Closure)
    requires Owned(s.slots, s.ext, c)
    ensures !HeldOutside(s, c)
  {}

  lemma UsersRefer(pcs: map<Agent, Pc>)
    ensures N(pcs, User) <= N(pcs, Ref)
  {
    assert Who(pcs, User) <= Who(pcs, Ref);
    Subset(Who(pcs, User), Who(pcs, Ref));
  }

  lemma KeepCondemns(s: State, a: Agent, t: State)
    requires Inv(s) && Condemns(s, a, t)
    ensures Inv(t)
  {
    hide N, Honest, Agents, AllOwned;
    Live(s, a);
    Knows(s, a);
    AliveSet(s, a);
    UsersRefer(t.pcs);
    var p := t.pcs[a];
    Moved(s.pcs, a, p, Ref);
    Playing(t.pcs, a, Sweeping);
    TallyMoved(s, a, p, t);
    ExcludedMoved(s, a, p, t);
    HonestMoved(s, a, p, t);
    AgentsMoved(s, a, p, t);
  }

  /* -------------------------------------------------------- reaping */

  lemma OthersUnflagged(s: State, a: Agent)
    requires Tallied(s) && a in s.pcs && Plays(s.pcs[a], Flag)
    ensures forall b | b in s.pcs && b != a :: !Plays(s.pcs[b], Flag)
  {
    hide N, Plays;
    Playing(s.pcs, a, Flag);
  }

  lemma KeepBeginsReaping(s: State, a: Agent, t: State)
    requires Inv(s) && BeginsReaping(s, a, t)
    ensures Inv(t)
  {
    hide N, Honest, Agents, Owed, AllOwned;
    Live(s, a);
    Knows(s, a);
    OthersUnflagged(s, a);
    var p := t.pcs[a];
    Moves(s.pcs, a, p);
    TallyMoved(s, a, p, t);
    ExcludedMoved(s, a, p, t);
    HonestMoved(s, a, p, t);
    AgentsUnflagged(s, a, p, t);
    OwedMoved(s, a, p, t);
  }

  lemma KeepEndsReaping(s: State, a: Agent, t: State)
    requires Inv(s) && EndsReaping(s, a, t)
    ensures Inv(t)
  {
    hide N, Honest, Agents, Owed, AllOwned;
    Live(s, a);
    Knows(s, a);
    OthersUnflagged(s, a);
    var p := t.pcs[a];
    Moves(s.pcs, a, p);
    TallyMoved(s, a, p, t);
    ExcludedMoved(s, a, p, t);
    HonestMoved(s, a, p, t);
    AgentsUnflagged(s, a, p, t);
    OwedMoved(s, a, p, t);
  }
}
