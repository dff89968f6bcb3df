/** Every step keeps the invariant: first what moving one agent does to each part, then the
 *  steps one by one. */
module FrameSteps {
  import opened Options
  import opened FrameProtocol
  import opened FrameSafety

  function B(p: Pc, r: Role): int {
    if Plays(p, r) then 1 else 0
  }

  function J(s: State): int {
    if s.word.judging then 1 else 0
  }

  /** Closures that are in no register and have no holder outside, but still refer to the frame. */
  function Stowed(s: State): nat {
    |s.parked| + |s.crated|
  }

  /** The word changes by exactly what agent a's move from q to p is worth. */
  predicate Paid(s: State, q: Pc, p: Pc, t: State) {
    && t.word.refs - |t.ext| - Stowed(t) - B(p, Ref) == s.word.refs - |s.ext| - Stowed(s) - B(q, Ref)
    && t.word.acts - B(p, Act) == s.word.acts - B(q, Act)
    && t.word.holds - t.deferred - B(p, Hold) - B(p, Second) == s.word.holds - s.deferred - B(q, Hold) - B(q, Second)
    && J(t) - B(p, Flag) == J(s) - B(q, Flag)
    && (if t.done then 0 else 1) - B(p, Own) == (if s.done then 0 else 1) - B(q, Own)
    && t.freed == (if Zero(t.word) then 1 else 0)
  }

  lemma TallyMoved(s: State, a: Agent, p: Pc, t: State)
    requires a in s.pcs && t.pcs == s.pcs[a := p]
    requires Tallied(s) && Paid(s, s.pcs[a], p, t)
    ensures Tallied(t)
  {
    hide Plays, N;
    Moves(s.pcs, a, p);
  }

  /** Nobody is past frame_enter when nobody is in a call. */
  lemma RunsAreCalls(pcs: map<Agent, Pc>)
    ensures N(pcs, Run) <= N(pcs, Act)
  {
    assert Who(pcs, Run) <= Who(pcs, Act);
    Subset(Who(pcs, Run), Who(pcs, Act));
  }

  lemma ClearersRefer(pcs: map<Agent, Pc>)
    ensures N(pcs, Clr) <= N(pcs, Ref)
  {
    assert Who(pcs, Clr) <= Who(pcs, Ref);
    Subset(Who(pcs, Clr), Who(pcs, Ref));
  }

  lemma ExcludedMoved(s: State, a: Agent, p: Pc, t: State)
    requires a in s.pcs && t.pcs == s.pcs[a := p]
    requires Tallied(s) && Excluded(s)
    requires t.word.judging ==> !p.Running? && t.done && (s.word.judging || s.word.acts == 0)
    ensures Excluded(t)
  {
    hide N;
    Moves(s.pcs, a, p);
    RunsAreCalls(s.pcs);
  }

  /** The slots and holders are the same; an agent that begins a release owns what it releases. */
  lemma HonestMoved(s: State, a: Agent, p: Pc, t: State)
    requires a in s.pcs && t.pcs == s.pcs[a := p] && t.slots == s.slots && t.ext == s.ext
    requires Honest(s)
    requires forall c: Closure :: Plays(p, Letting(c)) ==> Plays(s.pcs[a], Letting(c)) || HeldOutside(s, c)
    ensures Honest(t)
  {
    hide N, Plays, Count;
    Moves(s.pcs, a, p);
  }

  /** What the other agents know still holds when none of what it speaks of changes. */
  lemma AgentsMoved(s: State, a: Agent, p: Pc, t: State)
    requires a in s.pcs && t.pcs == s.pcs[a := p] && Agents(s) && PcOk(t, a, p)
    requires s.done ==> t.done
    requires s.garbage ==> t.garbage
    requires s.begun <= t.begun && s.lastStore <= t.lastStore
    requires t.slots == s.slots && t.ext == s.ext && t.reaper == s.reaper
    requires p.Clearing? ==> s.pcs[a].Clearing?
    ensures Agents(t)
  {
    assert N(t.pcs, Clr) <= N(s.pcs, Clr) by { Moved(s.pcs, a, p, Clr); }
    hide N, Plays, Owned, AllOwned, ReapedTo;
    forall b | b in t.pcs ensures PcOk(t, b, t.pcs[b]) {
      if b != a { assert PcOk(s, b, s.pcs[b]); }
    }
  }

  /** The reaper goes on clearing the registers, or no closure is left in them. */
  predicate Swept(s: State, p: Pc) {
    Plays(p, Sweeping) || s.ext == map[]
  }

  lemma DoomedMoved(s: State, a: Agent, p: Pc, t: State)
    requires a in s.pcs && t.pcs == s.pcs[a := p] && Doomed(s)
    requires t.slots == s.slots && t.ext == s.ext && t.reaper == s.reaper && t.garbage == s.garbage
    requires t.garbage ==>
      t.done && t.word.acts == 0 && !Plays(p, User) && (Plays(s.pcs[a], Sweeping) ==> Swept(s, p))
    ensures Doomed(t)
  {
    hide N, Plays, AllOwned;
    Moves(s.pcs, a, p);
  }

  /** The agent owes as much of a judgement as before, or more; nothing else changes. */
  predicate StillOwes(q: Pc, p: Pc) {
    || Plays(p, Active)
    || (!Plays(q, Active) && (Plays(q, Reading) ==> Plays(p, Reading)) && (Plays(q, Taking) ==> Plays(p, Taking))
        && (Plays(q, Checking) ==> Plays(p, Checking)))
  }

  lemma OwedMoved(s: State, a: Agent, p: Pc, t: State)
    requires a in s.pcs && t.pcs == s.pcs[a := p] && Owed(s)
    requires StillOwes(s.pcs[a], p) || t.deferred > 0 || t.lastStore < t.stood || t.garbage
    requires t.lastStore == s.lastStore && t.stood == s.stood && t.begun == s.begun && t.pending == s.pending
    requires t.garbage == s.garbage && t.freed >= s.freed
    requires t.deferred >= s.deferred || Plays(p, Active)
    requires t.word.judging ==> s.word.judging || Plays(p, Active)
    ensures Owed(t)
  {
    hide N, Plays;
    Moves(s.pcs, a, p);
    if Plays(p, Active) { assert N(t.pcs, Active) >= 1 by { Playing(t.pcs, a, Active); } }
  }

  predicate Silent(s: State, a: Agent, p: Pc, t: State) {
    a in s.pcs && t == s.(pcs := s.pcs[a := p], word := t.word, deferred := t.deferred, freed := t.freed,
                           freeing := t.freeing, parked := t.parked, crated := t.crated)
  }

  /** An agent at work keeps the frame allocated. */
  lemma Live(s: State, a: Agent)
    requires Tallied(s) && Honest(s) && a in s.pcs && !s.pcs[a].Idle?
    ensures !Zero(s.word)
  {
    hide N, Rc;
    if Plays(s.pcs[a], Ref) {
      Playing(s.pcs, a, Ref);
    } else if Plays(s.pcs[a], Hold) {
      Playing(s.pcs, a, Hold);
    } else {
      Playing(s.pcs, a, Letting(s.pcs[a].c));
      Alive(s, s.pcs[a].c);
    }
  }

  lemma Alive(s: State, c: Closure)
    requires Tallied(s) && c in s.ext
    ensures s.word.refs > 0 && s.freed == 0
  {
    assert c in s.ext.Keys;
  }

  lemma HolderLives(s: State, c: Closure)
    requires Inv(s) && HeldOutside(s, c)
    ensures s.word.refs > 0 && s.freed == 0 && !s.garbage && s.reaper == None
  {
    hide N, Plays, Honest, Agents, Dated;
    Alive(s, c);
    var alive := s.ext.Keys;
    assert c in alive;
    assert AllOwned(s.slots, s.ext, alive) ==> Owned(s.slots, s.ext, c);
  }

  lemma Knows(s: State, a: Agent)
    requires Agents(s) && a in s.pcs
    ensures PcOk(s, a, s.pcs[a])
  {}

  lemma NoCalls(s: State)
    requires Doomed(s)
    ensures s.garbage ==> s.done && s.word.acts == 0
  {}

  /** After a garbage verdict nobody uses the frame. */
  lemma Outsider(s: State, a: Agent)
    requires Doomed(s) && a in s.pcs && Plays(s.pcs[a], User)
    ensures !s.garbage
  {
    hide AllOwned, Plays;
    Playing(s.pcs, a, User);
  }

  /** What an agent in the middle of something can rely on. */
  lemma AtWork(s: State, a: Agent)
    requires Inv(s) && a in s.pcs && !s.pcs[a].Idle?
    ensures !Zero(s.word) && s.freed == 0
    ensures s.word.judging ==> s.done
    ensures s.garbage ==> s.done && s.word.acts == 0
    ensures Plays(s.pcs[a], User) ==> !s.garbage
    ensures PcOk(s, a, s.pcs[a])
    ensures Shelved(s.freeing, s.parked, s.crated)
  {
    hide N, Honest, Agents, Dated, Plays, PcOk, AllOwned, Shelved;
    Live(s, a);
    Knows(s, a);
    if Plays(s.pcs[a], User) { Outsider(s, a); }
  }

  /** And one that is in the middle of nothing. */
  lemma AtRest(s: State)
    requires Inv(s)
    ensures s.word.judging ==> s.done
    ensures s.garbage ==> s.done && s.word.acts == 0
    ensures s.freed == (if Zero(s.word) then 1 else 0)
    ensures s.deferred > 0 || |s.parked| > 0 || |s.crated| > 0 ==> !Zero(s.word)
    ensures Shelved(s.freeing, s.parked, s.crated)
  {
    hide N, Honest, Agents, Dated, AllOwned, Shelved;
  }

  /** A step that moves one agent and touches only the word, the deferred list and the worklists. */
  lemma Calm(s: State, a: Agent, p: Pc, t: State)
    requires Inv(s) && Silent(s, a, p, t)
    requires Paid(s, s.pcs[a], p, t)
    requires PcOk(t, a, p) && (p.Clearing? ==> s.pcs[a].Clearing?)
    requires t.word.judging ==> !p.Running? && t.done && (s.word.judging || s.word.acts == 0)
    requires forall c: Closure :: Plays(p, Letting(c)) ==> Plays(s.pcs[a], Letting(c)) || HeldOutside(s, c)
    requires t.garbage ==> t.word.acts == 0 && !Plays(p, User) && (Plays(s.pcs[a], Sweeping) ==> Swept(s, p))
    requires Shelved(t.freeing, t.parked, t.crated)
    requires StillOwes(s.pcs[a], p) || t.deferred > 0 || t.lastStore < t.stood || t.garbage
    requires t.deferred >= s.deferred || Plays(p, Active)
    requires t.word.judging ==> s.word.judging || Plays(p, Active)
    requires t.freed >= s.freed
    ensures Inv(t)
  {
    hide Tallied, Excluded, Honest, Agents, Owed, N, Plays, Paid, PcOk, StillOwes, AllOwned, Shelved, Swept;
    TallyMoved(s, a, p, t);
    ExcludedMoved(s, a, p, t);
    HonestMoved(s, a, p, t);
    AgentsMoved(s, a, p, t);
    DoomedMoved(s, a, p, t);
    OwedMoved(s, a, p, t);
  }

  lemma EntersPaid(s: State, a: Agent, c: Closure, t: State)
    requires Enters(s, a, c, t) && s.freed == 0
    ensures Paid(s, s.pcs[a], t.pcs[a], t)
  {
    hide HeldOutside;
  }

  lemma KeepEnters(s: State, a: Agent, c: Closure, t: State)
    requires Inv(s) && Enters(s, a, c, t)
    ensures Inv(t)
  {
    hide Inv, N, Paid, HeldOutside, Rc;
    AtRest(s);
    HolderLives(s, c);
    EntersPaid(s, a, c, t);
    Calm(s, a, t.pcs[a], t);
  }

  /** An agent whose judgement, if it owes one, it owes at one point only. */
  lemma OwesNothing(q: Pc, p: Pc)
    requires q.Running? || q.Unholding? || q.Dropping? || q.Clearing? || q.Plain? || q.Waiting? || q.Dead? || q.Idle?
             || q.Unpacked?
    ensures StillOwes(q, p)
  {}

  lemma EndsWaitPaid(s: State, a: Agent, t: State)
    requires EndsWait(s, a, t) && !Zero(s.word) && s.freed == 0
    ensures Paid(s, s.pcs[a], t.pcs[a], t)
  {}

  lemma KeepEndsWait(s: State, a: Agent, t: State)
    requires Inv(s) && EndsWait(s, a, t)
    ensures Inv(t)
  {
    hide Inv, N, Paid, StillOwes;
    AtWork(s, a);
    EndsWaitPaid(s, a, t);
    OwesNothing(s.pcs[a], t.pcs[a]);
    Calm(s, a, t.pcs[a], t);
  }

  lemma ExitsPaid(s: State, a: Agent, t: State)
    requires Exits(s, a, t) && !Zero(s.word) && s.freed == 0
    ensures Paid(s, s.pcs[a], t.pcs[a], t)
  {}

  lemma KeepExits(s: State, a: Agent, t: State)
    requires Inv(s) && Exits(s, a, t)
    ensures Inv(t)
  {
    hide Inv, N, Paid, StillOwes;
    AtWork(s, a);
    ExitsPaid(s, a, t);
    OwesNothing(s.pcs[a], t.pcs[a]);
    Calm(s, a, t.pcs[a], t);
  }

  lemma LeavesPaid(s: State, a: Agent, t: State)
    requires Leaves(s, a, t) && !Zero(s.word) && s.freed == 0
    ensures Paid(s, s.pcs[a], t.pcs[a], t)
  {}

  lemma KeepLeaves(s: State, a: Agent, t: State)
    requires Inv(s) && Leaves(s, a, t)
    ensures Inv(t)
  {
    hide Inv, N, Paid, StillOwes;
    AtWork(s, a);
    LeavesPaid(s, a, t);
    OwesNothing(s.pcs[a], t.pcs[a]);
    Calm(s, a, t.pcs[a], t);
  }

  lemma KeepBeginsRelease(s: State, a: Agent, c: Closure, t: State)
    requires Inv(s) && BeginsRelease(s, a, c, t)
    ensures Inv(t)
  {
    hide N, Honest, Agents, Owed, Rc, Doomed, Dated;
    HolderLives(s, c);
    Calm(s, a, t.pcs[a], t);
  }

  lemma KeepTakesHold(s: State, a: Agent, t: State)
    requires Inv(s) && TakesHold(s, a, t)
    ensures Inv(t)
  {
    hide N, Honest, Agents, Owed, Rc, Doomed, Dated;
    Live(s, a);
    NoCalls(s);
    Knows(s, a);
    Calm(s, a, t.pcs[a], t);
  }

  lemma UnholdsPaid(s: State, a: Agent, t: State)
    requires Unholds(s, a, t) && !Zero(s.word) && s.freed == 0
    ensures Paid(s, s.pcs[a], t.pcs[a], t)
  {}

  lemma KeepUnholds(s: State, a: Agent, t: State)
    requires Inv(s) && Unholds(s, a, t)
    ensures Inv(t)
  {
    hide Inv, N, Paid, StillOwes;
    AtWork(s, a);
    UnholdsPaid(s, a, t);
    OwesNothing(s.pcs[a], t.pcs[a]);
    Calm(s, a, t.pcs[a], t);
  }

  lemma DropsToHoldPaid(s: State, a: Agent, t: State)
    requires DropsToHold(s, a, t) && !Zero(s.word) && s.freed == 0
    ensures Paid(s, s.pcs[a], t.pcs[a], t)
  {}

  lemma KeepDropsToHold(s: State, a: Agent, t: State)
    requires Inv(s) && DropsToHold(s, a, t)
    ensures Inv(t)
  {
    hide Inv, N, Paid;
    AtWork(s, a);
    DropsToHoldPaid(s, a, t);
    Calm(s, a, t.pcs[a], t);
  }

  lemma DropsLastPaid(s: State, a: Agent, t: State)
    requires DropsLast(s, a, t) && !Zero(s.word) && s.freed == 0
    ensures Paid(s, s.pcs[a], t.pcs[a], t)
  {}

  lemma KeepDropsLast(s: State, a: Agent, t: State)
    requires Inv(s) && DropsLast(s, a, t)
    ensures Inv(t)
  {
    hide Inv, N, Paid, StillOwes;
    AtWork(s, a);
    DropsLastPaid(s, a, t);
    OwesNothing(s.pcs[a], t.pcs[a]);
    Calm(s, a, t.pcs[a], t);
  }

  /* -------------------------------------------------------- the worklists */

  lemma OneMore(m: multiset<nat>, h: nat)
    ensures |m + multiset{h}| == |m| + 1 && h in m + multiset{h}
    ensures forall g | g in m + multiset{h} :: g in m || g == h
  {}

  lemma OneLess(m: multiset<nat>, h: nat)
    requires h in m
    ensures |m - multiset{h}| == |m| - 1
    ensures forall g | g in m - multiset{h} :: g in m
  {}

  /** Which threads free objects is nobody's concern but their own. */
  lemma KeepFreeing(s: State, t: State)
    requires Inv(s) && t == s.(freeing := t.freeing) && Shelved(t.freeing, t.parked, t.crated)
    ensures Inv(t)
  {
    hide N, Count, Owned, Shelved;
    assert Agents(t) by {
      hide PcOk;
      forall b | b in t.pcs ensures PcOk(t, b, t.pcs[b]) { SamePcOk(s, t, b); }
    }
  }

  lemma SamePcOk(s: State, t: State, b: Agent)
    requires Agents(s) && b in s.pcs && t == s.(freeing := t.freeing)
    ensures PcOk(t, b, s.pcs[b])
  {
    hide N, Owned;
    assert PcOk(s, b, s.pcs[b]);
  }

  lemma KeepBeginsFreeing(s: State, a: Agent, t: State)
    requires Inv(s) && BeginsFreeing(s, a, t)
    ensures Inv(t)
  {
    hide Tallied, Excluded, Honest, Agents, Doomed, Dated;
    KeepFreeing(s, t);
  }

  lemma KeepEndsFreeing(s: State, a: Agent, t: State)
    requires Inv(s) && EndsFreeing(s, a, t)
    ensures Inv(t)
  {
    hide Tallied, Excluded, Honest, Agents, Doomed, Dated;
    KeepFreeing(s, t);
  }

  lemma FreesClosurePaid(s: State, a: Agent, t: State)
    requires FreesClosure(s, a, t) && !Zero(s.word) && s.freed == 0
    ensures Paid(s, s.pcs[a], t.pcs[a], t)
  {}

  lemma KeepFreesClosure(s: State, a: Agent, t: State)
    requires Inv(s) && FreesClosure(s, a, t)
    ensures Inv(t)
  {
    hide Inv, N, Paid, StillOwes;
    AtWork(s, a);
    FreesClosurePaid(s, a, t);
    OwesNothing(s.pcs[a], t.pcs[a]);
    Calm(s, a, t.pcs[a], t);
  }

  lemma ParksClosurePaid(s: State, a: Agent, t: State)
    requires ParksClosure(s, a, t) && !Zero(s.word) && s.freed == 0
    ensures Paid(s, s.pcs[a], t.pcs[a], t)
  {
    OneMore(s.parked, a.thread);
  }

  lemma KeepParksClosure(s: State, a: Agent, t: State)
    requires Inv(s) && ParksClosure(s, a, t)
    ensures Inv(t)
  {
    hide Inv, N, Paid, StillOwes;
    AtWork(s, a);
    OneMore(s.parked, a.thread);
    ParksClosurePaid(s, a, t);
    OwesNothing(s.pcs[a], t.pcs[a]);
    Calm(s, a, t.pcs[a], t);
  }

  lemma DrainsClosurePaid(s: State, a: Agent, t: State)
    requires DrainsClosure(s, a, t) && !Zero(s.word) && s.freed == 0
    ensures Paid(s, s.pcs[a], t.pcs[a], t)
  {
    OneLess(s.parked, a.thread);
  }

  lemma KeepDrainsClosure(s: State, a: Agent, t: State)
    requires Inv(s) && DrainsClosure(s, a, t)
    ensures Inv(t)
  {
    hide Inv, N, Paid, StillOwes;
    AtRest(s);
    OneLess(s.parked, a.thread);
    DrainsClosurePaid(s, a, t);
    OwesNothing(s.pcs[a], t.pcs[a]);
    Calm(s, a, t.pcs[a], t);
  }

  lemma UnpacksPaid(s: State, a: Agent, t: State)
    requires Unpacks(s, a, t) && !Zero(s.word) && s.freed == 0
    ensures Paid(s, s.pcs[a], t.pcs[a], t)
  {
    OneLess(s.crated, a.thread);
  }

  lemma KeepUnpacks(s: State, a: Agent, t: State)
    requires Inv(s) && Unpacks(s, a, t)
    ensures Inv(t)
  {
    hide Inv, N, Paid, StillOwes;
    AtRest(s);
    OneLess(s.crated, a.thread);
    UnpacksPaid(s, a, t);
    OwesNothing(s.pcs[a], t.pcs[a]);
    Calm(s, a, t.pcs[a], t);
  }

  lemma UnpacksLastPaid(s: State, a: Agent, t: State)
    requires UnpacksLast(s, a, t) && !Zero(s.word) && s.freed == 0
    ensures Paid(s, s.pcs[a], t.pcs[a], t)
  {}

  lemma KeepUnpacksLast(s: State, a: Agent, t: State)
    requires Inv(s) && UnpacksLast(s, a, t)
    ensures Inv(t)
  {
    hide Inv, N, Paid, StillOwes;
    AtWork(s, a);
    UnpacksLastPaid(s, a, t);
    OwesNothing(s.pcs[a], t.pcs[a]);
    Calm(s, a, t.pcs[a], t);
  }

  /* -------------------------------------------------------- the judge */

  lemma PicksPaid(s: State, a: Agent, t: State)
    requires Picks(s, a, t) && !Zero(s.word) && s.freed == 0
    ensures Paid(s, s.pcs[a], t.pcs[a], t)
  {}

  lemma KeepPicks(s: State, a: Agent, t: State)
    requires Inv(s) && Picks(s, a, t)
    ensures Inv(t)
  {
    hide Inv, N, Paid;
    AtRest(s);
    PicksPaid(s, a, t);
    Calm(s, a, t.pcs[a], t);
  }

  lemma KeepTestsDone(s: State, a: Agent, t: State)
    requires Inv(s) && TestsDone(s, a, t)
    ensures Inv(t)
  {
    hide N, Honest, Agents, Owed, Rc, Doomed;
    Live(s, a);
    NoCalls(s);
    Knows(s, a);
    Calm(s, a, t.pcs[a], t);
  }

  lemma KeepTestsReaper(s: State, a: Agent, t: State)
    requires Inv(s) && TestsReaper(s, a, t)
    ensures Inv(t)
  {
    hide N, Honest, Agents, Owed, Rc, Dated;
    Live(s, a);
    NoCalls(s);
    Knows(s, a);
    Calm(s, a, t.pcs[a], t);
  }

  lemma KeepTestsActs(s: State, a: Agent, t: State)
    requires Inv(s) && TestsActs(s, a, t)
    ensures Inv(t)
  {
    hide N, Honest, Agents, Owed, Rc, Doomed, Dated;
    Live(s, a);
    NoCalls(s);
    Knows(s, a);
    Calm(s, a, t.pcs[a], t);
  }

  lemma KeepDefers(s: State, a: Agent, t: State)
    requires Inv(s) && Defers(s, a, t)
    ensures Inv(t)
  {
    hide N, Honest, Agents, Owed, Rc, Doomed, Dated;
    Live(s, a);
    NoCalls(s);
    Knows(s, a);
    Calm(s, a, t.pcs[a], t);
  }

  lemma KeepLooks(s: State, a: Agent, t: State)
    requires Inv(s) && Looks(s, a, t)
    ensures Inv(t)
  {
    hide N, Honest, Agents, Owed, Rc, Doomed, Dated;
    Live(s, a);
    NoCalls(s);
    Knows(s, a);
    Calm(s, a, t.pcs[a], t);
  }

  lemma KeepRetries(s: State, a: Agent, t: State)
    requires Inv(s) && Retries(s, a, t)
    ensures Inv(t)
  {
    hide N, Honest, Agents, Owed, Rc, Doomed;
    Live(s, a);
    NoCalls(s);
    Knows(s, a);
    Calm(s, a, t.pcs[a], t);
  }

  lemma KeepRaises(s: State, a: Agent, t: State)
    requires Inv(s) && Raises(s, a, t)
    ensures Inv(t)
  {
    hide N, Honest, Agents, Owed, Rc, Doomed, Dated;
    Live(s, a);
    NoCalls(s);
    Knows(s, a);
    Moved(s.pcs, a, t.pcs[a], Clr);
    ClearersRefer(s.pcs);
    assert |s.ext.Keys| == |s.ext|;
    Calm(s, a, t.pcs[a], t);
  }

  lemma KeepEndsReading(s: State, a: Agent, t: State)
    requires Inv(s) && EndsReading(s, a, t)
    ensures Inv(t)
  {
    hide N, Honest, Agents, Owed, Rc, Doomed, Dated;
    Live(s, a);
    NoCalls(s);
    Knows(s, a);
    Moved(s.pcs, a, t.pcs[a], Clr);
    hide AllOwned;
    Calm(s, a, t.pcs[a], t);
  }

  lemma KeepVoids(s: State, a: Agent, t: State)
    requires Inv(s) && Voids(s, a, t)
    ensures Inv(t)
  {
    hide N, Honest, Agents, Owed, Rc, Doomed, Dated;
    Live(s, a);
    NoCalls(s);
    Knows(s, a);
    Calm(s, a, t.pcs[a], t);
  }

  lemma KeepLooksAgain(s: State, a: Agent, t: State)
    requires Inv(s) && LooksAgain(s, a, t)
    ensures Inv(t)
  {
    hide N, Honest, Agents, Owed, Rc, Doomed, Dated;
    Live(s, a);
    NoCalls(s);
    Knows(s, a);
    Playing(s.pcs, a, Flag);
    Playing(s.pcs, a, Hold);
    Calm(s, a, t.pcs[a], t);
  }

  lemma KeepLowersFlag(s: State, a: Agent, t: State)
    requires Inv(s) && LowersFlag(s, a, t)
    ensures Inv(t)
  {
    hide N, Honest, Agents, Owed, Rc, Doomed, Dated;
    Live(s, a);
    NoCalls(s);
    Knows(s, a);
    Playing(s.pcs, a, Flag);
    Playing(s.pcs, a, Hold);
    Calm(s, a, t.pcs[a], t);
  }

  /** What the judge counts is owned by the frame alone. */
  lemma CountedIsOwned(s: State, i: nat)
    requires Honest(s) && Counts(s, i)
    ensures Owned(s.slots, s.ext, s.slots[i].clo.value)
  {
    CountPositive(s.slots, i, s.slots[i].clo.value);
  }

  lemma OneMoreKnown(s: State, c0: Word, seen: set<Closure>, known: set<Closure>, c: Closure)
    requires Watching(s, c0, seen) && Known(s, c0, seen, known) && Owned(s.slots, s.ext, c)
    ensures Known(s, c0, seen, known + {c})
  {
    hide Owned, N;
    assert c in s.ext.Keys by { OwnedLives(s, c); }
    forall d | d in known + {c} ensures |seen| == c0.refs ==> Owned(s.slots, s.ext, d) {
      if |seen| == c0.refs && d in known { assert Owned(s.slots, s.ext, d); }
    }
  }

  lemma OwnedLives(s: State, c: Closure)
    requires Owned(s.slots, s.ext, c)
    ensures c in s.ext
  {}

  lemma KeepPassesRead(s: State, a: Agent, t: State)
    requires Inv(s) && ReadsSlot(s, a, false, t)
    ensures Inv(t)
  {
    hide N, Honest, Agents, Owed, Rc, Doomed, Dated;
    Live(s, a);
    NoCalls(s);
    Knows(s, a);
    Moved(s.pcs, a, t.pcs[a], Clr);
    hide AllOwned;
    Calm(s, a, t.pcs[a], t);
  }

  lemma KeepCounts(s: State, a: Agent, t: State)
    requires Inv(s) && ReadsSlot(s, a, true, t)
    ensures Inv(t)
  {
    hide N, Honest, Agents, Owed, Rc, Doomed, Dated, AllOwned, Owned, Known;
    Live(s, a);
    NoCalls(s);
    Knows(s, a);
    Moved(s.pcs, a, t.pcs[a], Clr);
    var p := s.pcs[a];
    CountedIsOwned(s, p.i);
    OneMoreKnown(s, p.c0, p.seen, p.known, s.slots[p.i].clo.value);
    SameKnown(s, p.c0, p.seen, t.pcs[a].known, t);
    Calm(s, a, t.pcs[a], t);
  }

  lemma SameKnown(s: State, c0: Word, seen: set<Closure>, known: set<Closure>, t: State)
    requires Known(s, c0, seen, known) && t.slots == s.slots && t.ext == s.ext
    ensures Known(t, c0, seen, known)
  {}

  /** In a condemned frame, a slot the reaper passes over holds no closure. */
  lemma EmptyOrCounted(s: State, i: nat)
    requires Honest(s) && Doomed(s) && s.garbage && i < |s.slots|
    ensures s.slots[i].clo == None || Counts(s, i)
  {
    if s.slots[i].clo.Some? {
      var c := s.slots[i].clo.value;
      assert c in s.ext.Keys;
      assert Owned(s.slots, s.ext, c);
    }
  }

  lemma OneMoreReaped(slots: seq<Slot>, i: nat)
    requires ReapedTo(slots, i) && i < |slots| && slots[i].clo == None
    ensures ReapedTo(slots, i + 1)
  {}

  lemma {:induction false} CountNone(slots: seq<Slot>, c: Closure)
    requires forall i | 0 <= i < |slots| :: slots[i].clo == None
    ensures Count(slots, c) == 0
  {
    if slots != [] { CountNone(slots[1..], c); }
  }

  lemma EmptyOwnsNone(slots: seq<Slot>, ext: map<Closure, nat>, c: Closure)
    requires forall i | 0 <= i < |slots| :: slots[i].clo == None
    ensures !Owned(slots, ext, c)
  {
    CountNone(slots, c);
  }

  /** When the reaper has been through every slot no closure is left. */
  lemma AllReaped(s: State, i: nat)
    requires Doomed(s) && s.garbage && ReapedTo(s.slots, i) && i >= |s.slots|
    ensures s.ext == map[]
  {
    hide Owned, N;
    var alive := s.ext.Keys;
    if alive != {} {
      var c :| c in alive;
      EmptyOwnsNone(s.slots, s.ext, c);
    }
  }

  lemma ReaperCondemned(s: State)
    requires Doomed(s)
    ensures s.reaper.Some? ==> s.garbage && s.done && s.word.acts == 0
  {}

  lemma KeepPassesSlot(s: State, a: Agent, t: State)
    requires Inv(s) && PassesSlot(s, a, t)
    ensures Inv(t)
  {
    hide N, Honest, Agents, Owed, Rc, Doomed, Dated, ReapedTo, Counts;
    Live(s, a);
    NoCalls(s);
    Knows(s, a);
    ReaperCondemned(s);
    EmptyOrCounted(s, s.pcs[a].i);
    OneMoreReaped(s.slots, s.pcs[a].i);
    Calm(s, a, t.pcs[a], t);
  }

  lemma KeepReapUnholds(s: State, a: Agent, t: State)
    requires Inv(s) && ReapUnholds(s, a, t)
    ensures Inv(t)
  {
    hide N, Honest, Agents, Owed, Rc, Doomed, Dated, ReapedTo, Counts;
    Live(s, a);
    NoCalls(s);
    Knows(s, a);
    ReaperCondemned(s);
    Calm(s, a, t.pcs[a], t);
  }

  lemma KeepReapFrees(s: State, a: Agent, t: State)
    requires Inv(s) && ReapFrees(s, a, t)
    ensures Inv(t)
  {
    hide N, Honest, Agents, Owed, Rc, Doomed, Dated, ReapedTo, Counts;
    Live(s, a);
    NoCalls(s);
    Knows(s, a);
    ReaperCondemned(s);
    Calm(s, a, t.pcs[a], t);
  }

  lemma KeepReapParks(s: State, a: Agent, t: State)
    requires Inv(s) && ReapParks(s, a, t)
    ensures Inv(t)
  {
    hide N, Honest, Agents, Owed, Rc, Doomed, Dated, ReapedTo, Counts;
    Live(s, a);
    NoCalls(s);
    Knows(s, a);
    ReaperCondemned(s);
    OneMore(s.parked, a.thread);
    Calm(s, a, t.pcs[a], t);
  }

  lemma KeepReapDropsToHold(s: State, a: Agent, t: State)
    requires Inv(s) && ReapDropsToHold(s, a, t)
    ensures Inv(t)
  {
    hide N, Honest, Agents, Owed, Rc, Doomed, Dated, ReapedTo, Counts;
    Live(s, a);
    NoCalls(s);
    Knows(s, a);
    ReaperCondemned(s);
    Calm(s, a, t.pcs[a], t);
  }

  lemma KeepReapDropsLast(s: State, a: Agent, t: State)
    requires Inv(s) && ReapDropsLast(s, a, t)
    ensures Inv(t)
  {
    hide N, Honest, Agents, Owed, Rc, Doomed, Dated, ReapedTo, Counts;
    Live(s, a);
    NoCalls(s);
    Knows(s, a);
    ReaperCondemned(s);
    Playing(s.pcs, a, Hold);
    Calm(s, a, t.pcs[a], t);
  }

  lemma KeepEndsSlots(s: State, a: Agent, t: State)
    requires Inv(s) && EndsSlots(s, a, t)
    ensures Inv(t)
  {
    hide N, Honest, Agents, Owed, Rc, Doomed, Dated, ReapedTo, Counts;
    Live(s, a);
    NoCalls(s);
    Knows(s, a);
    ReaperCondemned(s);
    AllReaped(s, s.pcs[a].i);
    Calm(s, a, t.pcs[a], t);
  }
}
