/** Which releases of a finished frame's closures judge the frame. */
module FrameReleases {
  import opened Options
  import opened FrameProtocol
  import opened FrameProgress
  import opened FrameLeaks

  predicate LetsGo(p: Pc) { p.RelSeen? || p.RelUnheld? || p.RelHeld? }

  /** What a step makes of a release under way: it goes on as it was, takes its hold, or drops. */
  predicate GoesOn(p: Pc, q: Pc) {
    LetsGo(q) ==> q == p || (p.RelSeen? && q == RelHeld(p.c))
  }

  ghost predicate AllGoOn(s: State, t: State) {
    forall b | b in s.pcs && LetsGo(s.pcs[b]) :: b in t.pcs && GoesOn(s.pcs[b], t.pcs[b])
  }

  /** Agent a alone has moved. */
  predicate Moves(s: State, t: State, a: Agent) { a in s.pcs && a in t.pcs && t.pcs == s.pcs[a := t.pcs[a]] }

  lemma MovedGoesOn(s: State, t: State, a: Agent)
    requires Moves(s, t, a) && (LetsGo(s.pcs[a]) ==> GoesOn(s.pcs[a], t.pcs[a]))
    ensures AllGoOn(s, t)
  {}

  lemma StayedGoesOn(s: State, t: State)
    requires t.pcs == s.pcs
    ensures AllGoOn(s, t)
  {}

  lemma GoOnMutating(s: State, x: Label, t: State)
    requires Mutates(s, t, x.a, x.c, x.i, x.extra)
    ensures t.pcs == s.pcs
  {
    hide MayWrite, HeldOutside;
  }

  lemma CallingMoves(s: State, t: State, a: Agent, c: Closure)
    requires Calls(s, t, a, c)
    ensures Moves(s, t, a)
  {
    hide Enters, Exits;
    if Enters(s, a, c, t) || Exits(s, a, t) { CountingMoves(s, t, a, c); }
  }

  lemma CountingMoves(s: State, t: State, a: Agent, c: Closure)
    requires Enters(s, a, c, t) || Exits(s, a, t)
    ensures Moves(s, t, a)
  {
    hide HeldOutside;
  }

  lemma CallingWhere(s: State, t: State, a: Agent, c: Closure)
    requires Calls(s, t, a, c)
    ensures a in s.pcs && !LetsGo(s.pcs[a])
  {
    hide HeldOutside;
  }

  lemma DrainingMoves(s: State, t: State, a: Agent)
    requires FreesClosure(s, a, t) || ParksClosure(s, a, t) || DrainsClosure(s, a, t) || Unpacks(s, a,
          t) || UnpacksLast(s, a, t)
    ensures Moves(s, t, a)
  {}

  lemma DrainingWhere(s: State, t: State, a: Agent)
    requires FreesClosure(s, a, t) || ParksClosure(s, a, t) || DrainsClosure(s, a, t) || Unpacks(s, a,
          t) || UnpacksLast(s, a, t)
    ensures a in s.pcs && !LetsGo(s.pcs[a])
  {}

  lemma ApproachingMoves(s: State, t: State, a: Agent)
    requires Approaches(s, t, a)
    ensures Moves(s, t, a)
  {
    hide TestsDone, TestsReaper;
    if TestsDone(s, a, t) || TestsReaper(s, a, t) { TestingMoves(s, t, a); }
  }

  lemma TestingMoves(s: State, t: State, a: Agent)
    requires TestsDone(s, a, t) || TestsReaper(s, a, t)
    ensures Moves(s, t, a)
  {}

  lemma ApproachingWhere(s: State, t: State, a: Agent)
    requires Approaches(s, t, a)
    ensures a in s.pcs && !LetsGo(s.pcs[a])
  {}

  lemma ContendingMoves(s: State, t: State, a: Agent)
    requires Contends(s, t, a)
    ensures Moves(s, t, a)
  {
    hide Looks, Raises;
    if Looks(s, a, t) || Raises(s, a, t) { LookingMoves(s, t, a); }
  }

  lemma LookingMoves(s: State, t: State, a: Agent)
    requires Looks(s, a, t) || Raises(s, a, t)
    ensures Moves(s, t, a)
  {}

  lemma ContendingWhere(s: State, t: State, a: Agent)
    requires Contends(s, t, a)
    ensures a in s.pcs && !LetsGo(s.pcs[a])
  {
    WhereContended(s, t, a);
    hide Contends;
  }

  lemma InspectingMoves(s: State, t: State, a: Agent)
    requires Inspects(s, t, a)
    ensures Moves(s, t, a)
  {
    hide Counts;
  }

  lemma InspectingWhere(s: State, t: State, a: Agent)
    requires Inspects(s, t, a)
    ensures a in s.pcs && !LetsGo(s.pcs[a])
  {
    hide Counts;
  }

  lemma DecidingMoves(s: State, t: State, a: Agent)
    requires Decides(s, t, a)
    ensures Moves(s, t, a)
  {
    hide Condemns, Acquits;
    if Condemns(s, a, t) || Acquits(s, a, t) { JudgingMoves(s, t, a); }
  }

  lemma JudgingMoves(s: State, t: State, a: Agent)
    requires Condemns(s, a, t) || Acquits(s, a, t)
    ensures Moves(s, t, a)
  {
    hide FindsGarbage;
  }

  lemma DecidingWhere(s: State, t: State, a: Agent)
    requires Decides(s, t, a)
    ensures a in s.pcs && !LetsGo(s.pcs[a])
  {
    hide FindsGarbage;
  }

  lemma ReapingMoves(s: State, t: State, a: Agent)
    requires Reaps(s, t, a)
    ensures Moves(s, t, a)
  {
    hide PassesSlot, ReapsSlot, ReapsCrate;
    if PassesSlot(s, a, t) || ReapsSlot(s, a, t) || ReapsCrate(s, a, t) { SweepingMoves(s, t, a); }
  }

  lemma SweepingMoves(s: State, t: State, a: Agent)
    requires PassesSlot(s, a, t) || ReapsSlot(s, a, t) || ReapsCrate(s, a, t)
    ensures Moves(s, t, a)
  {
    hide Counts;
  }

  lemma ReapingWhere(s: State, t: State, a: Agent)
    requires Reaps(s, t, a)
    ensures a in s.pcs && !LetsGo(s.pcs[a])
  {
    ReaperIs(s, t, a);
    hide Reaps;
  }

  lemma ReapReleasingMoves(s: State, t: State, a: Agent)
    requires ReapReleases(s, t, a)
    ensures Moves(s, t, a)
  {
    hide ReapUnholds, ReapDropsToHold;
    if ReapUnholds(s, a, t) || ReapDropsToHold(s, a, t) { ReapHoldingMoves(s, t, a); }
  }

  lemma ReapHoldingMoves(s: State, t: State, a: Agent)
    requires ReapUnholds(s, a, t) || ReapDropsToHold(s, a, t)
    ensures Moves(s, t, a)
  {}

  lemma ReapReleasingWhere(s: State, t: State, a: Agent)
    requires ReapReleases(s, t, a)
    ensures a in s.pcs && !LetsGo(s.pcs[a])
  {
    ReaperIs(s, t, a);
    hide ReapReleases;
  }

  lemma GoOnReleasing(s: State, t: State, a: Agent, c: Closure)
    requires Releases(s, t, a, c)
    ensures AllGoOn(s, t)
  {
    hide Unholds, DropsToHold, DropsLast, AllGoOn, HeldOutside, Rc;
    if Unholds(s, a, t) || DropsToHold(s, a, t) || DropsLast(s, a, t) { LoweringMoves(s, t, a); }
    MovedGoesOn(s, t, a);
  }

  lemma LoweringMoves(s: State, t: State, a: Agent)
    requires Unholds(s, a, t) || DropsToHold(s, a, t) || DropsLast(s, a, t)
    ensures Moves(s, t, a) && !LetsGo(s.pcs[a])
  {}

  lemma StepGoesOn(s: State, x: Label, t: State)
    requires Step(s, x, t)
    ensures AllGoOn(s, t)
  {
    hide AllGoOn, Moves, LetsGo, Mutates, Calls, Releases, Drains, Approaches, Contends, Inspects, Decides, Reaps,
      ReapReleases;
    if Mutates(s, t, x.a, x.c, x.i, x.extra) {
      GoOnMutating(s, x, t);
      StayedGoesOn(s, t);
    } else if Releases(s, t, x.a, x.c) {
      GoOnReleasing(s, t, x.a, x.c);
    } else if Drains(s, t, x.a) {
      GoOnDraining(s, t, x.a);
    } else {
      GoOnElse(s, x, t);
    }
  }

  lemma GoOnDraining(s: State, t: State, a: Agent)
    requires Drains(s, t, a)
    ensures AllGoOn(s, t)
  {
    hide AllGoOn, Moves, LetsGo, FreesClosure, ParksClosure, DrainsClosure, Unpacks, UnpacksLast;
    if BeginsFreeing(s, a, t) || EndsFreeing(s, a, t) {
      StayedGoesOn(s, t);
    } else {
      DrainingMoves(s, t, a);
      DrainingWhere(s, t, a);
      MovedGoesOn(s, t, a);
    }
  }

  lemma GoOnElse(s: State, x: Label, t: State)
    requires Calls(s, t, x.a, x.c) || Approaches(s, t, x.a) || Contends(s, t, x.a) || Inspects(s, t, x.a)
             || Decides(s, t, x.a) || Reaps(s, t, x.a) || ReapReleases(s, t, x.a)
    ensures AllGoOn(s, t)
  {
    hide *;
    if Calls(s, t, x.a, x.c) {
      CallingMoves(s, t, x.a, x.c);
      CallingWhere(s, t, x.a, x.c);
    } else if Approaches(s, t, x.a) {
      ApproachingMoves(s, t, x.a);
      ApproachingWhere(s, t, x.a);
    } else if Contends(s, t, x.a) {
      ContendingMoves(s, t, x.a);
      ContendingWhere(s, t, x.a);
    } else if Inspects(s, t, x.a) {
      InspectingMoves(s, t, x.a);
      InspectingWhere(s, t, x.a);
    } else if Decides(s, t, x.a) {
      DecidingMoves(s, t, x.a);
      DecidingWhere(s, t, x.a);
    } else if Reaps(s, t, x.a) {
      ReapingMoves(s, t, x.a);
      ReapingWhere(s, t, x.a);
    } else {
      ReapReleasingMoves(s, t, x.a);
      ReapReleasingWhere(s, t, x.a);
    }
    MovedElsewhere(s, t, x.a);
  }

  lemma MovedElsewhere(s: State, t: State, a: Agent)
    requires Moves(s, t, a) && a in s.pcs && !LetsGo(s.pcs[a])
    ensures AllGoOn(s, t)
  {
    MovedGoesOn(s, t, a);
  }

  /** A release under way from state i to state j stays without a hold if it read `done` as clear, and else
   *  waits for its hold or has it. */
  lemma {:induction false} UnderwaySaw(ss: seq<State>, xs: seq<Label>, i: nat, j: nat, a: Agent)
    requires Trace(ss, xs) && i <= j < |ss| && forall k | i <= k <= j :: a in ss[k].pcs && LetsGo(ss[k].pcs[a])
    ensures ss[i].pcs[a].RelUnheld? ==> ss[j].pcs[a] == ss[i].pcs[a]
    ensures ss[i].pcs[a].RelSeen? ==> ss[j].pcs[a] == ss[i].pcs[a] || ss[j].pcs[a] == RelHeld(ss[i].pcs[a].c)
    decreases j
  {
    hide Init, Step;
    if i < j {
      UnderwaySaw(ss, xs, i, j - 1, a);
      StepGoesOn(ss[j - 1], xs[j - 1], ss[j]);
    }
  }

  /** A release that leaves a closure of a finished frame with one holder goes on to judge the frame exactly
   *  when the function had returned before the release began; else it goes its way. */
  lemma ReleaseJudges(ss: seq<State>, xs: seq<Label>, i: nat, j: nat, a: Agent, c: Closure)
    requires Trace(ss, xs) && i < j < |xs| && BeginsRelease(ss[i], a, c, ss[i + 1]) && DropsClosure(ss[j], a, ss[j + 1])
    requires forall k | i < k <= j :: a in ss[k].pcs && LetsGo(ss[k].pcs[a])
    requires ss[j].done && c in ss[j].ext && Rc(ss[j], c) == 2
    ensures ss[j + 1].pcs[a] == if ss[i].done then Enter(ss[j].begun) else Idle
  {
    UnderwaySaw(ss, xs, i + 1, j, a);
    hide Trace, Rc, HeldOutside;
  }
}
