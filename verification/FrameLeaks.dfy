/** No finished frame that only its own closures refer to is left lying: some judgement of it is always
 *  on its way.  Where a release reads `done` too early that is not so. */
module FrameLeaks {
  import opened Options
  import opened FrameProtocol
  import opened FrameSafety
  import opened FrameSteps
  import opened FrameRuns
  import opened FrameTheorem
  import opened FrameVerdict
  import opened FrameProgress

  /* -------------------------------------------------------- what is left lying */

  /** The function has returned, every reference is of the frame's own, and nobody has found that. */
  ghost predicate Lying(s: State) { s.done && !s.garbage && OnlyItsOwn(s) }

  /** Agent a has a judgement before it, or one in progress that has counted all it has come to. */
  ghost predicate Fresh(s: State, a: Agent) {
    a in s.pcs
    && match s.pcs[a]
       case Enter(_) => true
       case ReaperTest(_) => true
       case Top(_) => true
       case Deferring(_) => true
       case Look(_) => true
       case Store(_) => true
       case Swap(_, _) => true
       case Clear(_, _, _) => true
       case Void(_) => true
       case Read(_, _, _, i, known) => i <= |s.slots| && KnownTo(s, i, known)
       case Verdict(_, _, _, known) => KnownTo(s, |s.slots|, known)
       case _ => false
  }

  predicate WillTakePending(p: Pc) { p.Read? || p.Verdict? || p.Exchange? }

  ghost predicate SomeoneFresh(s: State) { exists a :: Fresh(s, a) }

  ghost predicate SomeoneTakes(s: State) { exists a :: a in s.pcs && WillTakePending(s.pcs[a]) }

  ghost predicate SomeoneChecks(s: State) { exists a :: a in s.pcs && s.pcs[a].Check? }

  /** A judgement is on its way. */
  ghost predicate Coming(s: State) {
    s.deferred > 0 || SomeoneFresh(s) || (s.pending && SomeoneTakes(s)) || (!s.word.judging && SomeoneChecks(s))
  }

  /** What the code does beside the protocol: a judge counts what it can; a call's caller holds a closure
   *  until the call ends; a container does not lose its last outside holder once the function has
   *  returned; and no release drops a count after the return that had read `done` before it. */
  ghost predicate Careful(s: State, x: Label, t: State) {
    && (x.a in s.pcs && s.pcs[x.a].Read? && Inspects(s, t, x.a) ==> Judges(s, t, x.a))
    && (Exits(s, x.a, t) ==> exists c :: HeldOutside(s, c))
    && (Contains(s, x.a, x.i, x.extra, t) && s.done ==> x.extra > 0)
    && (DropsClosure(s, x.a, t) && s.done ==> x.a in s.pcs && s.pcs[x.a].RelHeld?)
  }

  /* -------------------------------------------------------- what is not lying */

  /** Somebody with a reference of another kind. */
  lemma RefElsewhere(s: State, a: Agent)
    requires Inv(s) && a in s.pcs && Plays(s.pcs[a], Ref)
    ensures !OnlyItsOwn(s)
  {
    hide N, Plays, HeldOnce, Agents, Doomed, Dated, Excluded, Honest;
    Playing(s.pcs, a, Ref);
  }

  lemma WorkElsewhere(s: State)
    requires Inv(s) && (|s.parked| > 0 || |s.crated| > 0)
    ensures !OnlyItsOwn(s)
  {
    hide N, Plays, HeldOnce, Agents, Doomed, Dated, Excluded, Honest;
  }

  lemma HeldElsewhere(s: State, c: Closure)
    requires c in s.ext && s.ext[c] > 0
    ensures !OnlyItsOwn(s)
  {}

  /** A slot whose container is shared. */
  lemma SharedElsewhere(s: State, i: nat)
    requires i < |s.slots| && s.slots[i].clo.Some? && s.slots[i].clo.value in s.ext && s.slots[i].extra > 0
    ensures !OnlyItsOwn(s)
  {
    assert !HeldOnce(s, s.slots[i].clo.value);
  }

  lemma TwiceElsewhere(s: State, c: Closure)
    requires c in s.ext && Rc(s, c) > 1
    ensures !OnlyItsOwn(s)
  {
    HeldOnceIsOwned(s, c);
    assert !HeldOnce(s, c);
  }

  /** The same slots, closures and references. */
  predicate SameFrame(s: State, t: State) {
    t.slots == s.slots && t.ext == s.ext && t.word.refs == s.word.refs && t.done == s.done && t.garbage == s.garbage
  }

  lemma SameLying(s: State, t: State)
    requires SameFrame(s, t)
    ensures Lying(t) <==> Lying(s)
  {
    SameOwn(s, t);
    hide OnlyItsOwn, Countable;
  }

  /* -------------------------------------------------------- how it could come to lie */

  /** Each group of steps, from a frame that is not lying to one that is: a judgement is on its way then. */
  lemma ComesByMutating(s: State, x: Label, t: State)
    requires Inv(s) && Inv(t) && Mutates(s, t, x.a, x.c, x.i, x.extra) && Careful(s, x, t) && !Lying(s)
    ensures !Lying(t)
  {
    hide Inv, OnlyItsOwn, N, Plays, Count, Exits, DropsClosure, Judges;
    if Puts(s, x.a, x.i, x.c, t) {
      ComesByPutting(s, t, x.a, x.i, x.c);
    } else if Contains(s, x.a, x.i, x.extra, t) {
      ComesByContaining(s, t, x);
    } else {
      ComesByHolding(s, t, x);
    }
  }

  lemma ComesByHolding(s: State, t: State, x: Label)
    requires MakesClosure(s, x.a, x.c, t) || Loads(s, x.a, x.i, t) || Takes(s, x.a, x.i, t) || Shares(s, x.c, t)
    ensures !OnlyItsOwn(t)
  {
    hide OnlyItsOwn, N, Count, HeldOutside;
    if MakesClosure(s, x.a, x.c, t) {
      HeldElsewhere(t, x.c);
    } else if Shares(s, x.c, t) {
      SharesKnown(s, x.c, t);
      HeldElsewhere(t, x.c);
    } else {
      HeldElsewhere(t, s.slots[x.i].clo.value);
    }
  }

  lemma SharesKnown(s: State, c: Closure, t: State)
    requires Shares(s, c, t)
    ensures c in t.ext && t.ext[c] > 0
  {
    hide N;
  }

  /** Who may write is a reference of its own, but where the slot's container is shared. */
  lemma WriterRefers(s: State, t: State, a: Agent, i: nat)
    requires Inv(s) && Inv(t) && MayWrite(s, a, i) && t.pcs == s.pcs && t.done == s.done && s.slots[i].extra == 0
    ensures !OnlyItsOwn(t)
  {
    hide Inv, OnlyItsOwn;
    assert Plays(t.pcs[a], Ref);
    RefElsewhere(t, a);
  }

  lemma ComesByPutting(s: State, t: State, a: Agent, i: nat, c: Closure)
    requires Inv(s) && Inv(t) && Puts(s, a, i, c, t)
    ensures !OnlyItsOwn(t)
  {
    hide Inv, OnlyItsOwn, N;
    if s.slots[i].extra > 0 {
      SharedElsewhere(t, i);
    } else {
      WriterRefers(s, t, a, i);
    }
  }

  lemma ComesByContaining(s: State, t: State, x: Label)
    requires Inv(s) && Inv(t) && Contains(s, x.a, x.i, x.extra, t) && (s.done ==> x.extra > 0) && !Lying(s)
    ensures !Lying(t)
  {
    hide Inv, OnlyItsOwn, N;
    if s.done {
      if s.slots[x.i].extra == 0 {
        WriterRefers(s, t, x.a, x.i);
      } else if s.slots[x.i].clo.None? {
        EmptySame(s, t, x.i, x.extra);
      } else {
        SlotAlive(t, x.i);
        SharedElsewhere(t, x.i);
      }
    }
  }

  lemma SlotAlive(s: State, i: nat)
    requires Inv(s) && i < |s.slots| && s.slots[i].clo.Some?
    ensures s.slots[i].clo.value in s.ext
  {
    hide N, Agents, Doomed, Dated, Excluded, Tallied;
  }

  /** An empty slot's container does not matter. */
  lemma EmptySame(s: State, t: State, i: nat, extra: nat)
    requires i < |s.slots| && s.slots[i].clo.None? && t == s.(slots := s.slots[i := s.slots[i].(extra := extra)])
    ensures OnlyItsOwn(t) <==> OnlyItsOwn(s)
    ensures forall j: nat :: Countable(t, j) <==> Countable(s, j)
  {
    forall c ensures HeldOnce(t, c) <==> HeldOnce(s, c) { EmptyHeld(s, t, i, extra, c); }
  }

  lemma EmptyHeld(s: State, t: State, i: nat, extra: nat, c: Closure)
    requires i < |s.slots| && s.slots[i].clo.None? && t == s.(slots := s.slots[i := s.slots[i].(extra := extra)])
    ensures HeldOnce(t, c) <==> HeldOnce(s, c)
  {
    assert |t.slots| == |s.slots| && forall k | 0 <= k < |s.slots| :: t.slots[k].clo == s.slots[k].clo;
    forall j: nat ensures HeldIn(t.slots, j, c) <==> HeldIn(s.slots, j, c) {}
    hide HeldIn;
    if HeldOnce(t, c) {
      var j: nat :| HeldIn(t.slots, j, c) && t.slots[j].extra == 0;
      assert HeldIn(s.slots, j, c);
    }
    if HeldOnce(s, c) {
      var j: nat :| HeldIn(s.slots, j, c) && s.slots[j].extra == 0;
      assert HeldIn(t.slots, j, c);
    }
  }

  lemma ComesByCalls(s: State, x: Label, t: State)
    requires Inv(s) && Inv(t) && Calls(s, t, x.a, x.c) && Careful(s, x, t)
    ensures !Lying(t)
  {
    hide Inv, OnlyItsOwn, N, DropsClosure, Contains, Judges;
    if Exits(s, x.a, t) {
      var c :| HeldOutside(s, c);
      HeldElsewhere(t, c);
    } else {
      CallRefers(s, t, x.a, x.c);
      RefElsewhere(t, x.a);
    }
  }

  lemma CallRefers(s: State, t: State, a: Agent, c: Closure)
    requires Calls(s, t, a, c) && !Exits(s, a, t)
    ensures a in t.pcs && Plays(t.pcs[a], Ref)
  {
    CallGoesOn(s, t, a, c);
    hide Calls, Exits;
  }

  lemma CallGoesOn(s: State, t: State, a: Agent, c: Closure)
    requires Calls(s, t, a, c) && !Exits(s, a, t)
    ensures a in t.pcs
    ensures var p := t.pcs[a]; p.Waiting? || p.Running? || p.Clearing? || p.Dropping?
  {
    hide Enters, EndsWait, Exits, Finishes, Leaves;
    if Enters(s, a, c, t) || EndsWait(s, a, t) { CallBegins(s, t, a, c); } else { FunctionEnds(s, t, a); }
  }

  lemma CallBegins(s: State, t: State, a: Agent, c: Closure)
    requires Enters(s, a, c, t) || EndsWait(s, a, t)
    ensures a in t.pcs && (t.pcs[a].Waiting? || t.pcs[a].Running?)
  {
    hide HeldOutside;
  }

  lemma FunctionEnds(s: State, t: State, a: Agent)
    requires Finishes(s, a, t) || Leaves(s, a, t)
    ensures a in t.pcs && (t.pcs[a].Clearing? || t.pcs[a].Dropping?)
  {}

  lemma ComesByReleases(s: State, x: Label, t: State)
    requires Inv(s) && Inv(t) && Releases(s, t, x.a, x.c) && Careful(s, x, t) && !Lying(s)
    ensures Lying(t) ==> SomeoneFresh(t)
  {
    hide Inv, OnlyItsOwn, N, Exits, Contains, Judges, Count;
    var a := x.a;
    if DropsClosure(s, a, t) {
      ComesByDropping(s, t, a);
    } else if DropsToHold(s, a, t) {
      assert Fresh(t, a);
    } else if DropsLast(s, a, t) {
      NoReferences(t);
    } else if Unholds(s, a, t) {
      ComesByUnholding(s, t, a);
    } else {
      LettingRefers(s, t, a, x.c);
    }
  }

  lemma NoReferences(t: State)
    requires t.word.refs == 0
    ensures !OnlyItsOwn(t)
  {}

  lemma ComesByUnholding(s: State, t: State, a: Agent)
    requires Inv(t) && Unholds(s, a, t) && !Lying(s)
    ensures !Lying(t)
  {
    hide Inv, OnlyItsOwn, N;
    if s.pcs[a].carries {
      RefElsewhere(t, a);
    } else {
      SameLying(s, t);
    }
  }

  lemma LettingRefers(s: State, t: State, a: Agent, c: Closure)
    requires Inv(s) && (BeginsRelease(s, a, c, t) || TakesHold(s, a, t))
    ensures !OnlyItsOwn(t)
  {
    hide Inv, OnlyItsOwn, N;
    if BeginsRelease(s, a, c, t) {
      HeldElsewhere(t, c);
    } else {
      LettingHolds(s, a);
      HeldElsewhere(t, s.pcs[a].c);
    }
  }

  lemma ComesByDropping(s: State, t: State, a: Agent)
    requires Inv(s) && Inv(t) && DropsClosure(s, a, t) && (s.done ==> s.pcs[a].RelHeld?)
    ensures Lying(t) ==> SomeoneFresh(t)
  {
    hide Inv, OnlyItsOwn, N, Count;
    if s.done {
      var c := s.pcs[a].c;
      var left := Rc(s, c) - 1;
      if left == 0 {
        RefElsewhere(t, a);
      } else if left == 1 {
        assert Fresh(t, a);
      } else {
        assert Rc(t, c) == left;
        TwiceElsewhere(t, c);
      }
    }
  }

  lemma ComesByDraining(s: State, t: State, a: Agent)
    requires Inv(t) && Drains(s, t, a) && !Lying(s)
    ensures !Lying(t)
  {
    hide Inv, OnlyItsOwn, N;
    if BeginsFreeing(s, a, t) || EndsFreeing(s, a, t) {
      SameLying(s, t);
    } else if ParksClosure(s, a, t) {
      assert |t.parked| > 0;
      WorkElsewhere(t);
    } else {
      DrainRefers(s, t, a);
      RefElsewhere(t, a);
    }
  }

  lemma DrainRefers(s: State, t: State, a: Agent)
    requires FreesClosure(s, a, t) || DrainsClosure(s, a, t) || Unpacks(s, a, t) || UnpacksLast(s, a, t)
    ensures a in t.pcs && Plays(t.pcs[a], Ref)
  {}

  /** A judge's own steps change nothing of it, but its verdict. */
  lemma ComesByJudging(s: State, t: State, a: Agent)
    requires Approaches(s, t, a) || Contends(s, t, a) || Inspects(s, t, a) || Decides(s, t, a)
    ensures Lying(t) ==> Lying(s)
  {
    JudgingSame(s, t, a);
    hide OnlyItsOwn, Approaches, Contends, Inspects, Decides;
    if t.garbage == s.garbage { SameLying(s, t); }
  }

  lemma JudgingSame(s: State, t: State, a: Agent)
    requires Approaches(s, t, a) || Contends(s, t, a) || Inspects(s, t, a) || Decides(s, t, a)
    ensures t.slots == s.slots && t.ext == s.ext && t.word.refs == s.word.refs && t.done == s.done
    ensures t.garbage == s.garbage || t.garbage
  {
    hide Approaches, Contends, Inspects, Decides;
    if Approaches(s, t, a) {
      ApproachingSame(s, t, a);
    } else if Contends(s, t, a) {
      ContendingSame(s, t, a);
    } else if Inspects(s, t, a) {
      InspectingSame(s, t, a);
    } else {
      DecidingSame(s, t, a);
    }
  }

  lemma ApproachingSame(s: State, t: State, a: Agent)
    requires Approaches(s, t, a)
    ensures SameFrame(s, t)
  {}

  lemma ContendingSame(s: State, t: State, a: Agent)
    requires Contends(s, t, a)
    ensures SameFrame(s, t)
  {}

  lemma InspectingSame(s: State, t: State, a: Agent)
    requires Inspects(s, t, a)
    ensures SameFrame(s, t)
  {
    hide Counts;
  }

  lemma DecidingSame(s: State, t: State, a: Agent)
    requires Decides(s, t, a)
    ensures SameFrame(s, t.(garbage := s.garbage)) && (t.garbage == s.garbage || t.garbage)
  {
    hide Condemns, Acquits, Voids, LooksAgain, TakesPending;
    if Condemns(s, a, t) || Acquits(s, a, t) {
      VerdictSame(s, t, a);
    } else {
      AfterSame(s, t, a);
    }
  }

  lemma VerdictSame(s: State, t: State, a: Agent)
    requires Condemns(s, a, t) || Acquits(s, a, t)
    ensures SameFrame(s, t.(garbage := s.garbage)) && (t.garbage == s.garbage || t.garbage)
  {
    hide FindsGarbage;
  }

  lemma AfterSame(s: State, t: State, a: Agent)
    requires Voids(s, a, t) || LooksAgain(s, a, t) || TakesPending(s, a, t)
    ensures SameFrame(s, t)
  {}

  /** The reaper is at work only on a frame found to be garbage. */
  lemma ReapsGarbage(s: State, t: State, a: Agent)
    requires Inv(s) && (Reaps(s, t, a) || ReapReleases(s, t, a))
    ensures s.garbage && t.garbage
  {
    ReaperKnows(s, t, a);
    hide Inv, Reaps, ReapReleases;
    if Reaps(s, t, a) { ReapsSame(s, t, a); } else { ReapReleasesSame(s, t, a); }
  }

  lemma ReapsSame(s: State, t: State, a: Agent)
    requires Reaps(s, t, a)
    ensures t.garbage == s.garbage
  {
    hide ReapsSlot, ReapsCrate, Counts;
    if ReapsSlot(s, a, t) || ReapsCrate(s, a, t) { EmptyingSame(s, t, a); }
  }

  lemma EmptyingSame(s: State, t: State, a: Agent)
    requires ReapsSlot(s, a, t) || ReapsCrate(s, a, t)
    ensures t.garbage == s.garbage
  {
    hide Counts;
  }

  lemma ReapReleasesSame(s: State, t: State, a: Agent)
    requires ReapReleases(s, t, a)
    ensures t.garbage == s.garbage
  {}

  lemma ReaperKnows(s: State, t: State, a: Agent)
    requires Inv(s) && (Reaps(s, t, a) || ReapReleases(s, t, a))
    ensures s.garbage
  {
    ReaperIs(s, t, a);
    hide Reaps, ReapReleases, Inv, PcOk, Reaping;
    Consistent(s, a);
    ReapingKnows(s, a);
  }

  lemma Consistent(s: State, a: Agent)
    requires Inv(s) && a in s.pcs
    ensures PcOk(s, a, s.pcs[a]) && (s.reaper.Some? ==> s.garbage)
  {
    hide N, Plays, Tallied, Honest, Excluded, Dated, AllOwned, PcOk, Shelved;
  }

  lemma ReapingKnows(s: State, a: Agent)
    requires a in s.pcs && PcOk(s, a, s.pcs[a]) && Reaping(s.pcs[a]) && (s.reaper.Some? ==> s.garbage)
    ensures s.garbage
  {
    hide Watching, Known, ReapedTo;
  }

  lemma ReaperIs(s: State, t: State, a: Agent)
    requires Reaps(s, t, a) || ReapReleases(s, t, a)
    ensures a in s.pcs && Reaping(s.pcs[a])
  {
    hide Rc, Count, Counts;
  }

  /* -------------------------------------------------------- while it lies */

  /** Nothing but judgements, and holds being given up, goes on. */
  lemma LyingSteps(s: State, x: Label, t: State)
    requires Inv(s) && Step(s, x, t) && Lying(s)
    ensures Contains(s, x.a, x.i, x.extra, t) || (Unholds(s, x.a, t) && s.pcs[x.a] == Unholding(false))
      || BeginsFreeing(s, x.a, t) || EndsFreeing(s, x.a, t)
      || Approaches(s, t, x.a) || Contends(s, t, x.a) || Inspects(s, t, x.a) || Decides(s, t, x.a)
  {
    hide Inv, OnlyItsOwn, Mutates, Calls, Releases, Drains, Approaches, Contends, Inspects, Decides, Reaps,
      ReapReleases, Contains, Unholds, BeginsFreeing, EndsFreeing;
    if Mutates(s, t, x.a, x.c, x.i, x.extra) {
      NoMutating(s, x, t);
    } else if Calls(s, t, x.a, x.c) {
      NoCalling(s, x, t);
    } else if Releases(s, t, x.a, x.c) {
      NoReleasing(s, x, t);
    } else if Drains(s, t, x.a) {
      NoDraining(s, x, t);
    } else if Reaps(s, t, x.a) || ReapReleases(s, t, x.a) {
      ReapsGarbage(s, t, x.a);
    }
  }

  lemma NobodyHolds(s: State, c: Closure)
    requires Lying(s)
    ensures !HeldOutside(s, c)
  {
    hide OnlyItsOwn, N;
    if HeldOutside(s, c) { HeldElsewhere(s, c); }
  }

  lemma NoWriting(s: State, a: Agent, i: nat)
    requires Inv(s) && Lying(s) && MayWrite(s, a, i)
    ensures s.slots[i].clo.None?
  {
    hide Inv, OnlyItsOwn, N;
    if s.slots[i].clo.Some? {
      SlotAlive(s, i);
      if s.slots[i].extra > 0 {
        SharedElsewhere(s, i);
      } else {
        RefElsewhere(s, a);
      }
    }
  }

  lemma NoMutating(s: State, x: Label, t: State)
    requires Inv(s) && Lying(s) && Mutates(s, t, x.a, x.c, x.i, x.extra)
    ensures Contains(s, x.a, x.i, x.extra, t)
  {
    hide Inv, OnlyItsOwn, N, HeldOutside, MayWrite, Lying;
    NobodyHolds(s, x.c);
    if MakesClosure(s, x.a, x.c, t) {
      MakerRefers(s, x.a, x.c, t);
    } else if Loads(s, x.a, x.i, t) {
      NoWriting(s, x.a, x.i);
    } else if Takes(s, x.a, x.i, t) {
      if At(s, x.a, Clearing) { RefersNot(s, x.a); } else { NoWriting(s, x.a, x.i); }
    }
  }

  lemma RefersNot(s: State, a: Agent)
    requires Inv(s) && Lying(s) && a in s.pcs
    ensures !Plays(s.pcs[a], Ref)
  {
    hide Inv, OnlyItsOwn, N, Plays;
    if Plays(s.pcs[a], Ref) { RefElsewhere(s, a); }
  }

  lemma MakerRefers(s: State, a: Agent, c: Closure, t: State)
    requires MakesClosure(s, a, c, t) && Inv(s)
    ensures !Lying(s)
  {
    hide Inv, OnlyItsOwn;
    RefElsewhere(s, a);
  }

  lemma NoCalling(s: State, x: Label, t: State)
    requires Inv(s) && Calls(s, t, x.a, x.c)
    ensures !Lying(s)
  {
    hide Inv, OnlyItsOwn, N, HeldOutside;
    if Enters(s, x.a, x.c, t) {
      if Lying(s) { NobodyHolds(s, x.c); }
    } else {
      RefElsewhere(s, x.a);
    }
  }

  lemma NoReleasing(s: State, x: Label, t: State)
    requires Inv(s) && Lying(s) && Releases(s, t, x.a, x.c)
    ensures Unholds(s, x.a, t) && s.pcs[x.a] == Unholding(false)
  {
    hide Inv, OnlyItsOwn, N, HeldOutside, Lying, Count;
    NobodyHolds(s, x.c);
    RefersNot(s, x.a);
    if TakesHold(s, x.a, t) || DropsClosure(s, x.a, t) {
      LettingNot(s, x.a);
    }
  }

  lemma LettingNot(s: State, a: Agent)
    requires Inv(s) && Lying(s) && a in s.pcs
    ensures !s.pcs[a].RelSeen? && !s.pcs[a].RelUnheld? && !s.pcs[a].RelHeld?
  {
    hide Inv, OnlyItsOwn, N;
    if s.pcs[a].RelSeen? || s.pcs[a].RelUnheld? || s.pcs[a].RelHeld? {
      LettingHolds(s, a);
      HeldElsewhere(s, s.pcs[a].c);
    }
  }

  lemma NoDraining(s: State, x: Label, t: State)
    requires Inv(s) && Lying(s) && Drains(s, t, x.a)
    ensures BeginsFreeing(s, x.a, t) || EndsFreeing(s, x.a, t)
  {
    hide Inv, OnlyItsOwn, N, BeginsFreeing, EndsFreeing;
    if x.a in s.pcs { hide Lying; RefersNot(s, x.a); }
    NoWork(s);
  }

  lemma NoWork(s: State)
    requires Inv(s) && Lying(s)
    ensures s.parked == multiset{} && s.crated == multiset{}
  {
    hide Inv, OnlyItsOwn, N;
    if |s.parked| > 0 || |s.crated| > 0 { WorkElsewhere(s); }
  }

  /* -------------------------------------------------------- the judgement goes on coming */

  /** What others do is not touched by a step of a's. */
  lemma KeptBeside(s: State, t: State, a: Agent)
    requires a in s.pcs && a in t.pcs && t.pcs == s.pcs[a := t.pcs[a]] && t.slots == s.slots && t.ext == s.ext
    ensures SomeoneFresh(s) && !Fresh(s, a) ==> SomeoneFresh(t)
    ensures SomeoneTakes(s) && !WillTakePending(s.pcs[a]) ==> SomeoneTakes(t)
    ensures SomeoneChecks(s) && !s.pcs[a].Check? ==> SomeoneChecks(t)
  {
    SameCountable(s, t);
    hide Countable;
    if SomeoneFresh(s) && !Fresh(s, a) {
      var b :| Fresh(s, b);
      assert Fresh(t, b);
    }
    hide Fresh;
    if SomeoneTakes(s) && !WillTakePending(s.pcs[a]) {
      var b :| b in s.pcs && WillTakePending(s.pcs[b]);
      assert b in t.pcs && t.pcs[b] == s.pcs[b];
    }
    if SomeoneChecks(s) && !s.pcs[a].Check? {
      var b :| b in s.pcs && s.pcs[b].Check?;
      assert b in t.pcs && t.pcs[b] == s.pcs[b];
    }
  }

  lemma ComingApproaching(s: State, t: State, a: Agent)
    requires Inv(s) && Lying(s) && Approaches(s, t, a)
    ensures Coming(t)
  {
    NoReaper(s);
    hide Inv, OnlyItsOwn, SomeoneFresh, SomeoneTakes, SomeoneChecks, Fresh;
    if !Defers(s, a, t) {
      ApproachGoesOn(s, t, a);
      AlmostFresh(t, a);
    }
  }

  lemma ApproachGoesOn(s: State, t: State, a: Agent)
    requires Approaches(s, t, a) && !Defers(s, a, t) && s.done && s.reaper == None
    ensures a in t.pcs
    ensures var p := t.pcs[a]; p.Enter? || p.ReaperTest? || p.Top? || p.Deferring? || p.Look?
  {}

  lemma AlmostFresh(s: State, a: Agent)
    requires a in s.pcs
    requires var p := s.pcs[a]; p.Enter? || p.ReaperTest? || p.Top? || p.Deferring? || p.Look?
    ensures SomeoneFresh(s)
  {
    assert Fresh(s, a);
  }

  lemma NoReaper(s: State)
    requires Inv(s) && !s.garbage
    ensures s.reaper == None
  {
    hide N, Agents, Dated, Excluded, Tallied, Honest, AllOwned;
  }

  lemma ComingContending(s: State, t: State, a: Agent)
    requires Inv(s) && Lying(s) && Contends(s, t, a) && Coming(s)
    ensures Coming(t)
  {
    hide Inv, OnlyItsOwn, KnownTo, SomeoneFresh, SomeoneTakes, SomeoneChecks;
    if SetsPending(s, a, t) {
      ComingStoring(s, t, a);
    } else if LeavesIt(s, a, t) {
      KeptBeside(s, t, a);
    } else {
      assert Fresh(t, a);
      IsFresh(t, a);
    }
  }

  lemma IsFresh(s: State, a: Agent)
    requires Fresh(s, a)
    ensures SomeoneFresh(s)
  {
    hide Fresh;
  }

  /** Who has the flag up has begun no reading yet, or sees `pending` when it is done. */
  lemma ComingStoring(s: State, t: State, a: Agent)
    requires Inv(s) && Lying(s) && SetsPending(s, a, t)
    ensures Coming(t)
  {
    hide OnlyItsOwn, KnownTo, Inv;
    if s.word.judging {
      var b := FlagHolder(s);
      HolderJudges(s, b);
      assert b != a && t.pcs[b] == s.pcs[b];
      if s.pcs[b].Clear? || s.pcs[b].Void? { assert Fresh(t, b); }
    } else {
      assert t.pcs[a].Check?;
    }
  }

  lemma HolderJudges(s: State, b: Agent)
    requires Inv(s) && !s.garbage && HasFlag(s, b)
    ensures s.pcs[b].Clear? || s.pcs[b].Read? || s.pcs[b].Verdict? || s.pcs[b].Void?
  {
    hide N, Dated, Excluded, Tallied, Honest, AllOwned, Watching, Known;
    assert PcOk(s, b, s.pcs[b]);
  }

  lemma ComingInspecting(s: State, t: State, a: Agent)
    requires Lying(s) && Inspects(s, t, a) && Coming(s) && (s.pcs[a].Read? ==> Judges(s, t, a))
    ensures Coming(t)
  {
    WhereInspected(s, t, a);
    hide Inspects, Lying, Judges, SomeoneFresh, SomeoneTakes, SomeoneChecks;
    if s.pcs[a].Clear? {
      ReadBegins(s, t, a);
      assert Fresh(t, a);
      IsFresh(t, a);
    } else {
      ReadStep(s, t, a);
      if Fresh(s, a) {
        FreshReads(s, t, a);
        IsFresh(t, a);
      }
      hide Fresh;
      KeptBeside(s, t, a);
      Taker(t, a);
    }
  }

  lemma Taker(s: State, a: Agent)
    requires a in s.pcs && WillTakePending(s.pcs[a])
    ensures SomeoneTakes(s)
  {}

  lemma FreshReads(s: State, t: State, a: Agent)
    requires Fresh(s, a) && s.pcs[a].Read? && Inspects(s, t, a) && Judges(s, t, a)
    ensures Fresh(t, a)
  {
    hide Inspects, Judges;
    ReadStep(s, t, a);
    SameCountable(s, t);
    var p := s.pcs[a];
    if p.i < |s.slots| && Countable(s, p.i) { JudgesCounts(s, t, a); }
    hide Countable;
    KnowsMore(s, t, p.i, if p.i < |s.slots| then p.i + 1 else |s.slots|, p.known, t.pcs[a].known);
  }

  lemma KnowsMore(s: State, t: State, i: nat, n: nat, known: set<Closure>, more: set<Closure>)
    requires n <= i + 1 && KnownTo(s, i, known) && known <= more
    requires t.slots == s.slots && forall j: nat :: Countable(s, j) <==> Countable(t, j)
    requires i < n && Countable(s, i) ==> s.slots[i].clo.value in more
    ensures KnownTo(t, n, more)
  {
    forall j: nat | j < n && Countable(t, j) ensures t.slots[j].clo.value in more { assert Countable(s, j); }
  }

  lemma ComingDeciding(s: State, t: State, a: Agent)
    requires Inv(s) && Lying(s) && Decides(s, t, a) && Coming(s)
    ensures Lying(t) ==> Coming(t)
  {
    hide Inv, OnlyItsOwn, FindsGarbage, SomeoneFresh, SomeoneTakes, SomeoneChecks;
    if Acquits(s, a, t) {
      NotAcquitted(s, t, a);
      KeptBeside(s, t, a);
      Taker(t, a);
    } else if TakesPending(s, a, t) && !s.pending {
      KeptBeside(s, t, a);
    } else if !Condemns(s, a, t) {
      assert Fresh(t, a);
      IsFresh(t, a);
    }
  }

  /** A judge that has counted everything does not acquit. */
  lemma NotAcquitted(s: State, t: State, a: Agent)
    requires Inv(s) && Lying(s) && Acquits(s, a, t)
    ensures !Fresh(s, a)
  {
    hide Inv, OnlyItsOwn, FindsGarbage, KnownTo;
    if Fresh(s, a) {
      KnownIsThorough(s, s.pcs[a].known);
      MustFind(s, a);
    }
  }

  lemma ComingBeside(s: State, t: State)
    requires t.pcs == s.pcs && t.pending == s.pending && t.deferred == s.deferred && t.word == s.word && Coming(s)
    requires |t.slots| == |s.slots|
    requires forall j: nat :: Countable(t, j) <==> Countable(s, j)
    requires forall j | 0 <= j < |s.slots| :: t.slots[j].clo == s.slots[j].clo
    ensures Coming(t)
  {
    hide Countable;
    if SomeoneFresh(s) {
      var b :| Fresh(s, b);
      assert Fresh(t, b);
    }
  }

  lemma ComingContaining(s: State, t: State, x: Label)
    requires Inv(s) && Lying(s) && Contains(s, x.a, x.i, x.extra, t) && Coming(s)
    ensures Coming(t)
  {
    hide Inv, OnlyItsOwn, Coming, Countable;
    NoWriting(s, x.a, x.i);
    EmptySame(s, t, x.i, x.extra);
    ComingBeside(s, t);
  }

  lemma ComingUnholding(s: State, t: State, a: Agent)
    requires Unholds(s, a, t) && s.pcs[a] == Unholding(false) && Coming(s)
    ensures Coming(t)
  {
    hide SomeoneFresh, SomeoneTakes, SomeoneChecks;
    KeptBeside(s, t, a);
  }

  lemma StaysComing(s: State, x: Label, t: State)
    requires Inv(s) && Step(s, x, t) && Careful(s, x, t) && Lying(s) && Coming(s)
    ensures Lying(t) ==> Coming(t)
  {
    LyingSteps(s, x, t);
    hide Inv, Lying, Coming, Step, Approaches, Contends, Inspects, Decides, Unholds, Contains, Countable, Judges;
    if Contains(s, x.a, x.i, x.extra, t) {
      ComingContaining(s, t, x);
    } else if Unholds(s, x.a, t) && s.pcs[x.a] == Unholding(false) {
      ComingUnholding(s, t, x.a);
    } else if BeginsFreeing(s, x.a, t) || EndsFreeing(s, x.a, t) {
      SameCountable(s, t);
      ComingBeside(s, t);
    } else if Approaches(s, t, x.a) {
      ComingApproaching(s, t, x.a);
    } else if Contends(s, t, x.a) {
      ComingContending(s, t, x.a);
    } else if Inspects(s, t, x.a) {
      WhereInspected(s, t, x.a);
      ComingInspecting(s, t, x.a);
    } else {
      ComingDeciding(s, t, x.a);
    }
  }

  /** One step: if the frame lies after it, a judgement is coming. */
  lemma StepComes(s: State, x: Label, t: State)
    requires Inv(s) && Inv(t) && Step(s, x, t) && Careful(s, x, t) && (Lying(s) ==> Coming(s))
    ensures Lying(t) ==> Coming(t)
  {
    hide Inv, Lying, Careful, Mutates, Calls, Releases, Drains, Approaches, Contends, Inspects, Decides, Reaps,
      ReapReleases, SomeoneTakes, SomeoneChecks;
    if Lying(s) {
      StaysComing(s, x, t);
    } else if Mutates(s, t, x.a, x.c, x.i, x.extra) {
      ComesByMutating(s, x, t);
    } else if Calls(s, t, x.a, x.c) {
      ComesByCalls(s, x, t);
    } else if Releases(s, t, x.a, x.c) {
      ComesByReleases(s, x, t);
    } else if Drains(s, t, x.a) {
      ComesByDraining(s, t, x.a);
    } else if Reaps(s, t, x.a) || ReapReleases(s, t, x.a) {
      ReapsGarbage(s, t, x.a);
      CondemnedNotLying(t);
    } else {
      ComesByJudging(s, t, x.a);
    }
  }

  lemma CondemnedNotLying(s: State)
    requires s.garbage
    ensures !Lying(s)
  {
    hide OnlyItsOwn;
  }

  /* -------------------------------------------------------- whole runs */

  /** In every state of every such run in which the frame lies there with no reference but its own, a
   *  judgement that will find it is on its way. */
  lemma {:induction false} JudgementComes(ss: seq<State>, xs: seq<Label>, i: nat)
    requires Trace(ss, xs) && i < |ss| && forall k | 0 <= k < i :: Careful(ss[k], xs[k], ss[k + 1])
    ensures Lying(ss[i]) ==> Coming(ss[i])
    decreases i
  {
    if i == 0 {
      BeginsAlive(ss[0]);
    } else {
      hide Inv, Lying, Coming, Careful, Init, Step;
      JudgementComes(ss, xs, i - 1);
      RunKeeps(ss, xs, i - 1);
      RunKeeps(ss, xs, i);
      assert Careful(ss[i - 1], xs[i - 1], ss[i - 1 + 1]);
      StepComes(ss[i - 1], xs[i - 1], ss[i]);
    }
  }

  lemma BeginsAlive(s: State)
    requires Init(s)
    ensures !Lying(s)
  {
    hide N, OnlyItsOwn;
  }

  /** So a finished frame is collected: once everybody has come to rest and nothing is deferred, it has
   *  been freed, or somebody outside holds a closure over it, or more than one of its own places do. */
  lemma NothingLeaks(ss: seq<State>, xs: seq<Label>, i: nat)
    requires Trace(ss, xs) && i < |ss| && forall k | 0 <= k < i :: Careful(ss[k], xs[k], ss[k + 1])
    requires AllAtRest(ss[i]) && ss[i].deferred == 0 && ss[i].done
    ensures ss[i].freed == 1 || exists c :: c in ss[i].ext && !HeldOnce(ss[i], c)
  {
    hide Trace, Inv, Coming, Careful;
    RunKeeps(ss, xs, i);
    JudgementComes(ss, xs, i);
    NobodyComes(ss[i]);
    if ss[i].garbage {
      CollectedWhole(ss, xs, i);
    } else if ss[i].freed != 1 {
      RestRefers(ss[i]);
    }
  }

  lemma NobodyComes(s: State)
    requires AllAtRest(s) && s.deferred == 0
    ensures !Coming(s)
  {}

  lemma RestRefers(s: State)
    requires Inv(s) && AllAtRest(s) && s.deferred == 0 && s.freed != 1
    ensures s.word.refs > 0 && s.word.refs == |s.ext|
  {
    hide N, Honest, Agents, Dated, Doomed, Excluded, Shelved;
    RestShelves(s);
    NothingParked(s);
    NobodyPlays(s.pcs, Ref);
    NobodyPlays(s.pcs, Act);
    NobodyPlays(s.pcs, Hold);
    NobodyPlays(s.pcs, Second);
    NobodyPlays(s.pcs, Flag);
  }

  lemma RestShelves(s: State)
    requires Inv(s)
    ensures Shelved(s.freeing, s.parked, s.crated)
  {
    hide N, Honest, Agents, Dated, Doomed, Excluded, Tallied;
  }

  /* -------------------------------------------------------- and else it lies for ever */

  /** The frame lies there, everybody is at rest, and no judgement is deferred. */
  ghost predicate Forgotten(s: State) {
    Lying(s) && s.deferred == 0 && forall a | a in s.pcs :: s.pcs[a].Idle?
  }

  lemma StaysForgotten(s: State, x: Label, t: State)
    requires Inv(s) && Step(s, x, t) && Forgotten(s)
    ensures Forgotten(t)
  {
    hide Inv, OnlyItsOwn, Step;
    LyingSteps(s, x, t);
    if Contains(s, x.a, x.i, x.extra, t) {
      NoWriting(s, x.a, x.i);
      EmptySame(s, t, x.i, x.extra);
    } else {
      NobodyActs(s, x, t);
      assert BeginsFreeing(s, x.a, t) || EndsFreeing(s, x.a, t);
      SameLying(s, t);
    }
  }

  lemma NobodyActs(s: State, x: Label, t: State)
    requires s.deferred == 0 && forall a | a in s.pcs :: s.pcs[a].Idle?
    ensures !Unholds(s, x.a, t) && !Approaches(s, t, x.a) && !Contends(s, t, x.a) && !Inspects(s, t, x.a)
    ensures !Decides(s, t, x.a)
  {
    hide FindsGarbage, Counts;
  }

  /** Where nobody has a judgement to make, the frame and its closures are never collected. */
  lemma {:induction false} ForgottenForEver(ss: seq<State>, xs: seq<Label>, i: nat, j: nat)
    requires Trace(ss, xs) && i <= j < |ss| && Forgotten(ss[i])
    ensures Forgotten(ss[j])
    decreases j
  {
    hide Inv, Forgotten, Init, Step;
    if i < j {
      ForgottenForEver(ss, xs, i, j - 1);
      RunKeeps(ss, xs, j - 1);
      StaysForgotten(ss[j - 1], xs[j - 1], ss[j]);
    }
  }
}
