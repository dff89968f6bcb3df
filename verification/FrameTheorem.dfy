/** The theorems about every run of the frame-judging protocol, with any number of agents. */
module FrameTheorem {
  import opened Options
  import opened FrameProtocol
  import opened FrameSafety
  import opened FrameSteps
  import opened FrameRuns
  import opened FrameHeap

  lemma {:induction false} NoClosures(slots: seq<Slot>)
    requires forall i | 0 <= i < |slots| :: slots[i].clo == None
    ensures forall c :: Count(slots, c) == 0
  {
    forall c ensures Count(slots, c) == 0 { CountNone(slots, c); }
  }

  lemma NobodyPlays(pcs: map<Agent, Pc>, r: Role)
    requires forall a | a in pcs :: !Plays(pcs[a], r)
    ensures N(pcs, r) == 0
  {
    hide Plays;
    assert Who(pcs, r) == {};
  }

  lemma InitKeeps(s: State)
    requires Init(s)
    ensures Inv(s)
  {
    hide N;
    NoClosures(s.slots);
    NobodyPlays(s.pcs, Act);
    NobodyPlays(s.pcs, Hold);
    NobodyPlays(s.pcs, Second);
    NobodyPlays(s.pcs, Flag);
    NobodyPlays(s.pcs, Run);
    forall c: Closure ensures N(s.pcs, Letting(c)) == 0 { NobodyPlays(s.pcs, Letting(c)); }
    OwnersRefer(s.pcs);
  }

  lemma OwnersRefer(pcs: map<Agent, Pc>)
    ensures N(pcs, Own) <= N(pcs, Ref)
  {
    assert Who(pcs, Own) <= Who(pcs, Ref);
    Subset(Who(pcs, Own), Who(pcs, Ref));
  }

  lemma MutatesKeeps(s: State, x: Label, t: State)
    requires Inv(s) && Mutates(s, t, x.a, x.c, x.i, x.extra)
    ensures Inv(t)
  {
    hide Inv, MakesClosure, Loads, Puts, Takes, Shares, Contains;
    if {
      case MakesClosure(s, x.a, x.c, t) => KeepMakesClosure(s, x.a, x.c, t);
      case Loads(s, x.a, x.i, t) => KeepLoads(s, x.a, x.i, t);
      case Puts(s, x.a, x.i, x.c, t) => KeepPuts(s, x.a, x.i, x.c, t);
      case Takes(s, x.a, x.i, t) => KeepTakes(s, x.a, x.i, t);
      case Shares(s, x.c, t) => KeepShares(s, x.c, t);
      case Contains(s, x.a, x.i, x.extra, t) => KeepContains(s, x.a, x.i, x.extra, t);
    }
  }

  lemma CallsKeeps(s: State, a: Agent, c: Closure, t: State)
    requires Inv(s) && Calls(s, t, a, c)
    ensures Inv(t)
  {
    hide Inv, Enters, EndsWait, Exits, Finishes, Leaves;
    if {
      case Enters(s, a, c, t) => KeepEnters(s, a, c, t);
      case EndsWait(s, a, t) => KeepEndsWait(s, a, t);
      case Exits(s, a, t) => KeepExits(s, a, t);
      case Finishes(s, a, t) => KeepFinishes(s, a, t);
      case Leaves(s, a, t) => KeepLeaves(s, a, t);
    }
  }

  lemma ReleasesKeeps(s: State, a: Agent, c: Closure, t: State)
    requires Inv(s) && Releases(s, t, a, c)
    ensures Inv(t)
  {
    hide Inv, BeginsRelease, TakesHold, DropsClosure, Unholds, DropsToHold, DropsLast;
    if {
      case BeginsRelease(s, a, c, t) => KeepBeginsRelease(s, a, c, t);
      case TakesHold(s, a, t) => KeepTakesHold(s, a, t);
      case DropsClosure(s, a, t) => KeepDropsClosure(s, a, t);
      case Unholds(s, a, t) => KeepUnholds(s, a, t);
      case DropsToHold(s, a, t) => KeepDropsToHold(s, a, t);
      case DropsLast(s, a, t) => KeepDropsLast(s, a, t);
    }
  }

  lemma ApproachesKeeps(s: State, a: Agent, t: State)
    requires Inv(s) && Approaches(s, t, a)
    ensures Inv(t)
  {
    hide Inv, Picks, TestsDone, TestsReaper, TestsActs, Defers;
    if {
      case Picks(s, a, t) => KeepPicks(s, a, t);
      case TestsDone(s, a, t) => KeepTestsDone(s, a, t);
      case TestsReaper(s, a, t) => KeepTestsReaper(s, a, t);
      case TestsActs(s, a, t) => KeepTestsActs(s, a, t);
      case Defers(s, a, t) => KeepDefers(s, a, t);
    }
  }

  lemma ContendsKeeps(s: State, a: Agent, t: State)
    requires Inv(s) && Contends(s, t, a)
    ensures Inv(t)
  {
    hide Inv, Looks, SetsPending, LeavesIt, Retries, Raises;
    if {
      case Looks(s, a, t) => KeepLooks(s, a, t);
      case SetsPending(s, a, t) => KeepSetsPending(s, a, t);
      case LeavesIt(s, a, t) => KeepLeavesIt(s, a, t);
      case Retries(s, a, t) => KeepRetries(s, a, t);
      case Raises(s, a, t) => KeepRaises(s, a, t);
    }
  }

  lemma DecidesKeeps(s: State, a: Agent, t: State)
    requires Inv(s) && Decides(s, t, a)
    ensures Inv(t)
  {
    hide Inv, Condemns, Acquits, Voids, LooksAgain, TakesPending;
    if {
      case Condemns(s, a, t) => KeepCondemns(s, a, t);
      case Acquits(s, a, t) => KeepAcquits(s, a, t);
      case Voids(s, a, t) => KeepVoids(s, a, t);
      case LooksAgain(s, a, t) => KeepLooksAgain(s, a, t);
      case TakesPending(s, a, t) => KeepTakesPending(s, a, t);
    }
  }

  lemma InspectsKeeps(s: State, a: Agent, t: State)
    requires Inv(s) && Inspects(s, t, a)
    ensures Inv(t)
  {
    hide Inv, BeginsReading, ReadsSlot, EndsReading;
    if {
      case BeginsReading(s, a, t) => KeepBeginsReading(s, a, t);
      case ReadsSlot(s, a, true, t) => KeepCounts(s, a, t);
      case ReadsSlot(s, a, false, t) => KeepPassesRead(s, a, t);
      case EndsReading(s, a, t) => KeepEndsReading(s, a, t);
    }
  }

  lemma DrainsKeeps(s: State, a: Agent, t: State)
    requires Inv(s) && Drains(s, t, a)
    ensures Inv(t)
  {
    hide Inv, BeginsFreeing, EndsFreeing, FreesClosure, ParksClosure, DrainsClosure, Unpacks, UnpacksLast;
    if {
      case BeginsFreeing(s, a, t) => KeepBeginsFreeing(s, a, t);
      case EndsFreeing(s, a, t) => KeepEndsFreeing(s, a, t);
      case FreesClosure(s, a, t) => KeepFreesClosure(s, a, t);
      case ParksClosure(s, a, t) => KeepParksClosure(s, a, t);
      case DrainsClosure(s, a, t) => KeepDrainsClosure(s, a, t);
      case Unpacks(s, a, t) => KeepUnpacks(s, a, t);
      case UnpacksLast(s, a, t) => KeepUnpacksLast(s, a, t);
    }
  }

  lemma ReapsKeeps(s: State, a: Agent, t: State)
    requires Inv(s) && Reaps(s, t, a)
    ensures Inv(t)
  {
    hide Inv, BeginsReaping, PassesSlot, ReapsSlot, ReapsCrate, EndsSlots, EndsReaping, LowersFlag;
    if {
      case BeginsReaping(s, a, t) => KeepBeginsReaping(s, a, t);
      case PassesSlot(s, a, t) => KeepPassesSlot(s, a, t);
      case ReapsSlot(s, a, t) => KeepReapsSlot(s, a, t);
      case ReapsCrate(s, a, t) => KeepReapsCrate(s, a, t);
      case EndsSlots(s, a, t) => KeepEndsSlots(s, a, t);
      case EndsReaping(s, a, t) => KeepEndsReaping(s, a, t);
      case LowersFlag(s, a, t) => KeepLowersFlag(s, a, t);
    }
  }

  lemma ReapReleasesKeeps(s: State, a: Agent, t: State)
    requires Inv(s) && ReapReleases(s, t, a)
    ensures Inv(t)
  {
    hide Inv, ReapUnholds, ReapFrees, ReapParks, ReapDropsToHold, ReapDropsLast;
    if {
      case ReapUnholds(s, a, t) => KeepReapUnholds(s, a, t);
      case ReapFrees(s, a, t) => KeepReapFrees(s, a, t);
      case ReapParks(s, a, t) => KeepReapParks(s, a, t);
      case ReapDropsToHold(s, a, t) => KeepReapDropsToHold(s, a, t);
      case ReapDropsLast(s, a, t) => KeepReapDropsLast(s, a, t);
    }
  }

  /** Every atomic step of every agent keeps the invariant. */
  lemma StepKeeps(s: State, x: Label, t: State)
    requires Inv(s) && Step(s, x, t)
    ensures Inv(t)
  {
    hide Inv, Mutates, Calls, Releases, Drains, Approaches, Contends, Inspects, Decides, Reaps, ReapReleases;
    if {
      case Mutates(s, t, x.a, x.c, x.i, x.extra) => MutatesKeeps(s, x, t);
      case Calls(s, t, x.a, x.c) => CallsKeeps(s, x.a, x.c, t);
      case Releases(s, t, x.a, x.c) => ReleasesKeeps(s, x.a, x.c, t);
      case Drains(s, t, x.a) => DrainsKeeps(s, x.a, t);
      case Approaches(s, t, x.a) => ApproachesKeeps(s, x.a, t);
      case Contends(s, t, x.a) => ContendsKeeps(s, x.a, t);
      case Inspects(s, t, x.a) => InspectsKeeps(s, x.a, t);
      case Decides(s, t, x.a) => DecidesKeeps(s, x.a, t);
      case Reaps(s, t, x.a) => ReapsKeeps(s, x.a, t);
      case ReapReleases(s, t, x.a) => ReapReleasesKeeps(s, x.a, t);
    }
  }

  /** So it holds in every state of every run. */
  lemma {:induction false} RunKeeps(ss: seq<State>, xs: seq<Label>, i: nat)
    requires Trace(ss, xs) && i < |ss|
    ensures Inv(ss[i])
  {
    hide Inv, Init, Step;
    if i == 0 {
      InitKeeps(ss[0]);
    } else {
      RunKeeps(ss, xs, i - 1);
      StepKeeps(ss[i - 1], xs[i - 1], ss[i]);
    }
  }

  /* -------------------------------------------------------- what it means */

  /** The count word is, at every moment, the references, the calls in progress and the holds; and
   *  dead closures are parked only by threads inside obj_free. */
  lemma WordIsTally(ss: seq<State>, xs: seq<Label>, i: nat)
    requires Trace(ss, xs) && i < |ss|
    ensures ss[i].word.refs == |ss[i].ext| + |ss[i].parked| + |ss[i].crated| + N(ss[i].pcs, Ref)
    ensures forall h | h in ss[i].parked || h in ss[i].crated :: h in ss[i].freeing
    ensures ss[i].word.acts == N(ss[i].pcs, Act)
    ensures ss[i].word.holds == N(ss[i].pcs, Hold) + N(ss[i].pcs, Second) + ss[i].deferred
    ensures ss[i].word.judging <==> N(ss[i].pcs, Flag) == 1
    ensures N(ss[i].pcs, Flag) <= 1
  {
    hide N, Trace, Excluded, Honest, Agents, Doomed, Dated;
    RunKeeps(ss, xs, i);
  }

  /** While a judge reads the registers no call over the frame is past frame_enter, and no other
   *  judge reads. */
  lemma ReadsAlone(ss: seq<State>, xs: seq<Label>, i: nat, a: Agent, b: Agent)
    requires Trace(ss, xs) && i < |ss|
    requires a in ss[i].pcs && Plays(ss[i].pcs[a], Reading)
    requires b in ss[i].pcs && b != a
    ensures !ss[i].pcs[b].Running? && !ss[i].pcs[b].Owner? && !Plays(ss[i].pcs[b], Reading)
  {
    hide N, Trace, Honest, Agents, Doomed, Dated;
    RunKeeps(ss, xs, i);
    Playing(ss[i].pcs, a, Flag);
    if ss[i].pcs[b].Running? { Playing(ss[i].pcs, b, Run); }
    if ss[i].pcs[b].Owner? { Playing(ss[i].pcs, b, Own); }
  }

  /** A garbage verdict that stands is right: every counted reference is a closure that only the
   *  frame's own registers hold, and no call is in progress. */
  lemma CondemnedRightly(ss: seq<State>, xs: seq<Label>, i: nat, a: Agent)
    requires Trace(ss, xs) && i + 1 < |ss| && Condemns(ss[i], a, ss[i + 1])
    ensures ss[i].word.refs == |ss[i].ext| && ss[i].word.acts == 0
    ensures forall c | c in ss[i].ext :: Owned(ss[i].slots, ss[i].ext, c) && !HeldOutside(ss[i], c)
  {
    hide N, Trace, Excluded, Honest, Agents, Doomed, Dated, Condemns, Owned;
    RunKeeps(ss, xs, i);
    VerdictIsSound(ss[i], a, ss[i + 1]);
  }

  /** The verdict and the latest drop left to others are never forgotten. */
  predicate Later(s: State, t: State) {
    s.left <= t.left && (s.garbage ==> t.garbage)
  }

  lemma MutatesHistory(s: State, x: Label, t: State)
    requires Mutates(s, t, x.a, x.c, x.i, x.extra)
    ensures Later(s, t)
  {
    hide Rc, N, Count, Counts, MayWrite, HeldOutside, Released, FindsGarbage;
  }

  lemma CallsHistory(s: State, a: Agent, c: Closure, t: State)
    requires Calls(s, t, a, c)
    ensures Later(s, t)
  {
    hide Rc, N, Count, Counts, MayWrite, HeldOutside, Released, FindsGarbage;
  }

  lemma ReleasesHistory(s: State, a: Agent, c: Closure, t: State)
    requires Releases(s, t, a, c)
    ensures Later(s, t)
  {
    hide Rc, N, Count, Counts, MayWrite, HeldOutside, Released, FindsGarbage;
  }

  lemma ApproachesHistory(s: State, a: Agent, t: State)
    requires Approaches(s, t, a)
    ensures Later(s, t)
  {
    hide Rc, N, Count, Counts, MayWrite, HeldOutside, Released, FindsGarbage;
  }

  lemma ContendsHistory(s: State, a: Agent, t: State)
    requires Contends(s, t, a)
    ensures Later(s, t)
  {
    hide Rc, N, Count, Counts, MayWrite, HeldOutside, Released, FindsGarbage;
  }

  lemma InspectsHistory(s: State, a: Agent, t: State)
    requires Inspects(s, t, a)
    ensures Later(s, t)
  {
    hide Rc, N, Count, Counts, MayWrite, HeldOutside, Released, FindsGarbage;
  }

  lemma DecidesHistory(s: State, a: Agent, t: State)
    requires Decides(s, t, a)
    ensures Later(s, t)
  {
    hide Rc, N, Count, Counts, MayWrite, HeldOutside, Released, FindsGarbage;
  }

  lemma DrainsHistory(s: State, a: Agent, t: State)
    requires Drains(s, t, a)
    ensures Later(s, t)
  {
    hide Rc, N, Count, Counts, MayWrite, HeldOutside, Released, FindsGarbage;
  }

  lemma ReapsHistory(s: State, a: Agent, t: State)
    requires Reaps(s, t, a)
    ensures Later(s, t)
  {
    hide Rc, N, Count, Counts, MayWrite, HeldOutside, Released, FindsGarbage;
  }

  lemma ReapReleasesHistory(s: State, a: Agent, t: State)
    requires ReapReleases(s, t, a)
    ensures Later(s, t)
  {
    hide Rc, N, Count, Counts, MayWrite, HeldOutside, Released, FindsGarbage;
  }

  lemma StepHistory(s: State, x: Label, t: State)
    requires Step(s, x, t)
    ensures Later(s, t)
  {
    hide Later, Mutates, Calls, Releases, Drains, Approaches, Contends, Inspects, Decides, Reaps, ReapReleases;
    if {
      case Mutates(s, t, x.a, x.c, x.i, x.extra) => MutatesHistory(s, x, t);
      case Calls(s, t, x.a, x.c) => CallsHistory(s, x.a, x.c, t);
      case Releases(s, t, x.a, x.c) => ReleasesHistory(s, x.a, x.c, t);
      case Drains(s, t, x.a) => DrainsHistory(s, x.a, t);
      case Approaches(s, t, x.a) => ApproachesHistory(s, x.a, t);
      case Contends(s, t, x.a) => ContendsHistory(s, x.a, t);
      case Inspects(s, t, x.a) => InspectsHistory(s, x.a, t);
      case Decides(s, t, x.a) => DecidesHistory(s, x.a, t);
      case Reaps(s, t, x.a) => ReapsHistory(s, x.a, t);
      case ReapReleases(s, t, x.a) => ReapReleasesHistory(s, x.a, t);
    }
  }

  lemma {:induction false} HistoryGrows(ss: seq<State>, xs: seq<Label>, i: nat, j: nat)
    requires Trace(ss, xs) && i <= j < |ss|
    ensures Later(ss[i], ss[j])
    decreases j
  {
    hide Step, N, Init;
    if j > i {
      HistoryGrows(ss, xs, i, j - 1);
      StepHistory(ss[j - 1], xs[j - 1], ss[j]);
    }
  }

  lemma CondemnedNow(s: State, a: Agent, t: State)
    requires Condemns(s, a, t)
    ensures t.garbage
  {}

  /** And it stays right: from then on nobody outside holds a closure over the frame, so no call
   *  enters and no reference is taken. */
  lemma NeverReachedAgain(ss: seq<State>, xs: seq<Label>, i: nat, j: nat, a: Agent, c: Closure)
    requires Trace(ss, xs) && i < j < |ss| && Condemns(ss[i], a, ss[i + 1])
    ensures ss[j].garbage && !HeldOutside(ss[j], c) && ss[j].word.acts == 0
  {
    hide N, Trace, Tallied, Excluded, Honest, Agents, Dated, Step, Condemns, HeldOutside, Rc;
    HistoryGrows(ss, xs, i + 1, j);
    assert ss[i + 1].garbage by { CondemnedNow(ss[i], a, ss[i + 1]); }
    RunKeeps(ss, xs, j);
    if HeldOutside(ss[j], c) { HolderLives(ss[j], c); }
  }

  /** The frame was condemned, and the reaper has been through its registers. */
  predicate Cleared(s: State) {
    s.garbage && forall a | a in s.pcs && Reaping(s.pcs[a]) :: s.pcs[a].ReapEnd? || s.pcs[a].ReapFlag?
  }

  lemma ClearedHolds(s: State)
    requires Inv(s) && Cleared(s)
    ensures s.ext == map[]
  {
    hide Tallied, Excluded, Honest, Agents, Dated, AllOwned, Shelved;
    if s.ext != map[] {
      assert Who(s.pcs, Sweeping) != {};
      var a :| a in Who(s.pcs, Sweeping);
      Knows(s, a);
    }
  }

  lemma NobodyUses(s: State)
    requires Doomed(s) && s.garbage
    ensures forall a | a in s.pcs :: !Plays(s.pcs[a], User)
  {
    hide Plays, AllOwned;
    forall a | a in s.pcs ensures !Plays(s.pcs[a], User) {
      if Plays(s.pcs[a], User) { Playing(s.pcs, a, User); }
    }
  }

  /** From when the reaper has been through the registers no register and nobody outside holds a
   *  closure over the frame, and nobody uses it.  Each reference that is left is a dead closure's on
   *  the worklist of a thread inside obj_free, or a closure's in a dead container there, or is being
   *  given up. */
  lemma ReapedWhole(ss: seq<State>, xs: seq<Label>, i: nat)
    requires Trace(ss, xs) && i < |ss| && Cleared(ss[i])
    ensures ss[i].ext == map[] && ss[i].word.acts == 0
    ensures forall k | 0 <= k < |ss[i].slots| :: ss[i].slots[k].clo == None
    ensures ss[i].word.refs == |ss[i].parked| + |ss[i].crated| + N(ss[i].pcs, Ref)
    ensures forall h | h in ss[i].parked || h in ss[i].crated :: h in ss[i].freeing
    ensures forall a | a in ss[i].pcs :: !Plays(ss[i].pcs[a], User)
  {
    hide N, Plays, Trace, Excluded, Agents, Dated, AllOwned, Rc;
    RunKeeps(ss, xs, i);
    ClearedHolds(ss[i]);
    NobodyUses(ss[i]);
  }

  /** Nobody is at work on the frame, and no thread is inside obj_free. */
  predicate AllAtRest(s: State) {
    s.freeing == {} && forall a | a in s.pcs :: s.pcs[a].Idle?
  }

  lemma NothingParked(s: State)
    requires s.freeing == {} && Shelved(s.freeing, s.parked, s.crated)
    ensures s.parked == multiset{} && s.crated == multiset{}
  {
    assert forall h :: h !in s.parked && h !in s.crated;
  }

  /** A condemned frame is collected: once every thread has left its frees, it has been freed, unless
   *  its judgement was deferred before and still waits. */
  lemma CollectedWhole(ss: seq<State>, xs: seq<Label>, i: nat)
    requires Trace(ss, xs) && i < |ss| && ss[i].garbage && AllAtRest(ss[i])
    ensures ss[i].freed == 1 || ss[i].deferred > 0
  {
    hide N, Trace, Honest, Agents, Dated, AllOwned, Shelved;
    RunKeeps(ss, xs, i);
    NothingParked(ss[i]);
    NobodyPlays(ss[i].pcs, Sweeping);
    NobodyPlays(ss[i].pcs, Ref);
    NobodyPlays(ss[i].pcs, Hold);
    NobodyPlays(ss[i].pcs, Second);
    NobodyPlays(ss[i].pcs, Flag);
  }

  /** The frame is freed when its word reaches zero, and once. */
  lemma FreedOnce(ss: seq<State>, xs: seq<Label>, i: nat)
    requires Trace(ss, xs) && i < |ss|
    ensures ss[i].freed <= 1 && (ss[i].freed == 1 <==> Zero(ss[i].word))
    ensures ss[i].freed == 1 ==> ss[i].ext == map[] && ss[i].deferred == 0
    ensures ss[i].freed == 1 ==> ss[i].parked == multiset{} && ss[i].crated == multiset{}
    ensures ss[i].freed == 1 ==> forall a | a in ss[i].pcs :: ss[i].pcs[a].Idle?
  {
    hide N, Trace, Excluded, Agents, Doomed, Dated;
    RunKeeps(ss, xs, i);
    forall a | a in ss[i].pcs ensures ss[i].freed == 1 ==> ss[i].pcs[a].Idle? {
      if !ss[i].pcs[a].Idle? { Live(ss[i], a); }
    }
  }

  /** After that no step of anybody touches it again: containers change, and threads free other
   *  things. */
  lemma UntouchedOnceFreed(ss: seq<State>, xs: seq<Label>, i: nat)
    requires Trace(ss, xs) && i < |xs| && ss[i].freed == 1
    ensures ss[i + 1] == ss[i].(slots := ss[i + 1].slots, freeing := ss[i + 1].freeing)
  {
    FreedOnce(ss, xs, i);
    Untouched(ss[i], xs[i], ss[i + 1]);
  }

  predicate Lifeless(s: State) {
    && s.ext == map[] && s.parked == multiset{} && s.crated == multiset{} && s.deferred == 0
    && forall a | a in s.pcs :: s.pcs[a].Idle?
  }

  lemma Untouched(s: State, x: Label, t: State)
    requires Step(s, x, t) && Lifeless(s)
    ensures t == s.(slots := t.slots, freeing := t.freeing)
  {
    hide Mutates, Calls, Releases, Drains, Approaches, Contends, Inspects, Decides, Reaps, ReapReleases, Lifeless;
    NobodyJudges(s, x.a, t);
    if Mutates(s, t, x.a, x.c, x.i, x.extra) {
      OnlyContainers(s, x, t);
    } else if Drains(s, t, x.a) {
      OnlyFreeing(s, x.a, t);
    } else {
      NobodyRefers(s, x.a, x.c, t);
    }
  }

  lemma OnlyContainers(s: State, x: Label, t: State)
    requires Lifeless(s) && Mutates(s, t, x.a, x.c, x.i, x.extra)
    ensures t == s.(slots := t.slots)
  {
    hide N;
  }

  lemma OnlyFreeing(s: State, a: Agent, t: State)
    requires Lifeless(s) && Drains(s, t, a)
    ensures t == s.(freeing := t.freeing)
  {}

  lemma NobodyRefers(s: State, a: Agent, c: Closure, t: State)
    requires Lifeless(s)
    ensures !Calls(s, t, a, c) && !Releases(s, t, a, c)
  {
    hide Rc, N;
  }

  lemma NobodyJudges(s: State, a: Agent, t: State)
    requires Lifeless(s)
    ensures !Approaches(s, t, a) && !Contends(s, t, a) && !Inspects(s, t, a) && !Decides(s, t, a) && !Reaps(s, t, a)
    ensures !ReapReleases(s, t, a)
  {
    hide Rc, N, Count, Counts;
  }

  /** Nobody is inside self_cycle_only. */
  predicate Quiet(s: State) {
    forall a | a in s.pcs :: !Judging(s.pcs[a])
  }

  lemma QuietIsSettled(s: State)
    requires Inv(s) && Quiet(s) && !s.garbage && s.freed == 0 && s.deferred == 0
    ensures s.left < s.stood
  {
    hide N, Tallied, Excluded, Honest, Agents, Doomed;
    NobodyPlays(s.pcs, Active);
    NobodyPlays(s.pcs, Reading);
    NobodyPlays(s.pcs, Taking);
    NobodyPlays(s.pcs, Checking);
  }

  /** No lost judgement.  Agent a drops a reference or a closure of the finished frame, finds
   *  another judge's flag up, and leaves.  Then in every later state in which nobody is judging,
   *  a reading of the registers that began after the drop has ended in a verdict that stood; or
   *  the frame was found to be garbage, or freed, or is on the deferred list with its hold. */
  lemma NoLostJudgement(ss: seq<State>, xs: seq<Label>, i: nat, j: nat, a: Agent)
    requires Trace(ss, xs) && i < j < |ss| && LeavesIt(ss[i], a, ss[i + 1]) && Quiet(ss[j])
    ensures ss[j].stood > ss[i].pcs[a].born || ss[j].garbage || ss[j].freed > 0 || ss[j].deferred > 0
  {
    hide N, Trace, Step, Inv, Quiet;
    RunKeeps(ss, xs, j);
    HistoryGrows(ss, xs, i + 1, j);
    if !ss[j].garbage && ss[j].freed == 0 && ss[j].deferred == 0 { QuietIsSettled(ss[j]); }
  }
}
