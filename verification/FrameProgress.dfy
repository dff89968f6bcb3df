/** Nobody is ever stuck in the protocol, and an undisturbed judgement comes to the right verdict. */
module FrameProgress {
  import opened Options
  import opened FrameProtocol
  import opened FrameSafety
  import opened FrameSteps
  import opened FrameRuns
  import opened FrameTheorem
  import opened FrameVerdict

  /* -------------------------------------------------------- nobody is stuck */

  /** Agent a can take a step of its own, to another point. */
  ghost predicate CanGo(s: State, a: Agent) {
    exists x: Label, t: State :: Goes(s, a, x, t)
  }

  ghost predicate Goes(s: State, a: Agent, x: Label, t: State) {
    a in s.pcs && x.a == a && Step(s, x, t) && a in t.pcs && t.pcs[a] != s.pcs[a]
  }

  function Plainly(a: Agent): Label { Label(a, 0, 0, 0) }

  lemma Gone(s: State, a: Agent, t: State)
    requires a in s.pcs && a in t.pcs && t.pcs[a] != s.pcs[a]
    requires Calls(s, t, a, 0) || Releases(s, t, a, 0) || Drains(s, t, a) || Approaches(s, t, a) || Contends(s, t, a)
             || Inspects(s, t, a) || Decides(s, t, a) || Reaps(s, t, a) || ReapReleases(s, t, a)
    ensures CanGo(s, a)
  {
    hide Calls, Releases, Drains, Approaches, Contends, Inspects, Decides, Reaps, ReapReleases;
    assert Goes(s, a, Plainly(a), t);
  }

  lemma CallGoes(s: State, a: Agent)
    requires a in s.pcs
    requires s.pcs[a].Owner? || s.pcs[a].Clearing? || s.pcs[a].Plain? || (s.pcs[a].Waiting? && !s.word.judging)
    ensures CanGo(s, a)
  {
    hide CanGo;
    var p := s.pcs[a];
    var t :=
      if p.Owner? then Go(s, a, Clearing).(done := true)
      else if p.Waiting? then Go(s, a, Running)
      else Go(s, a, Dropping);
    assert Calls(s, t, a, 0);
    Gone(s, a, t);
  }

  lemma ExitGoes(s: State, a: Agent)
    requires Inv(s) && a in s.pcs && s.pcs[a].Running?
    ensures CanGo(s, a)
  {
    hide CanGo, Inv;
    Counted(s, a);
    var t := Lower(Go(s, a, Idle), s.word.(refs := s.word.refs - 1, acts := s.word.acts - 1));
    assert Exits(s, a, t);
    Gone(s, a, t);
  }

  lemma ReleaseGoes(s: State, a: Agent)
    requires Inv(s) && a in s.pcs
    requires s.pcs[a].RelSeen? || s.pcs[a].RelUnheld? || s.pcs[a].RelHeld?
    ensures CanGo(s, a)
  {
    hide CanGo;
    var p, w := s.pcs[a], s.word;
    LettingHolds(s, a);
    hide Inv, Rc;
    if p.RelSeen? {
      var t := Go(s, a, RelHeld(p.c)).(word := w.(holds := w.holds + 1));
      assert Releases(s, t, a, 0);
      Gone(s, a, t);
    } else {
      var left := Rc(s, p.c) - 1;
      var t := Go(s, a, Released(left, p.RelHeld?, s.begun))
        .(ext := if left == 0 then s.ext - {p.c} else s.ext[p.c := s.ext[p.c] - 1]);
      assert Releases(s, t, a, 0);
      Gone(s, a, t);
    }
  }

  lemma LettingHolds(s: State, a: Agent)
    requires Inv(s) && a in s.pcs && (s.pcs[a].RelSeen? || s.pcs[a].RelUnheld? || s.pcs[a].RelHeld?)
    ensures s.pcs[a].c in s.ext && s.ext[s.pcs[a].c] > 0 && Rc(s, s.pcs[a].c) > 0
  {
    hide CanGo, N, Agents, Doomed, Dated, Excluded, Tallied, Count;
    Playing(s.pcs, a, Letting(s.pcs[a].c));
  }

  lemma Counted(s: State, a: Agent)
    requires Inv(s) && a in s.pcs
    ensures Plays(s.pcs[a], Hold) ==> s.word.holds > 0
    ensures Plays(s.pcs[a], Second) ==> s.word.holds > 0
    ensures Plays(s.pcs[a], Ref) ==> s.word.refs > 0
    ensures Plays(s.pcs[a], Act) ==> s.word.acts > 0
  {
    hide N, Plays, Honest, Agents, Doomed, Dated, Excluded;
    if Plays(s.pcs[a], Hold) { Playing(s.pcs, a, Hold); }
    if Plays(s.pcs[a], Second) { Playing(s.pcs, a, Second); }
    if Plays(s.pcs[a], Ref) { Playing(s.pcs, a, Ref); }
    if Plays(s.pcs[a], Act) { Playing(s.pcs, a, Act); }
  }

  lemma UnholdGoes(s: State, a: Agent)
    requires Inv(s) && a in s.pcs && s.pcs[a].Unholding?
    ensures CanGo(s, a)
  {
    hide CanGo, Inv;
    Counted(s, a);
    var t := Lower(Go(s, a, if s.pcs[a].carries then Dead else Idle), s.word.(holds := s.word.holds - 1));
    assert Unholds(s, a, t);
    Gone(s, a, t);
  }

  lemma DropGoes(s: State, a: Agent)
    requires Inv(s) && a in s.pcs && s.pcs[a].Dropping?
    ensures CanGo(s, a)
  {
    hide CanGo, Inv;
    Counted(s, a);
    var w := s.word;
    var t :=
      if w.refs > 1 then Go(s, a, Enter(s.begun)).(word := w.(refs := w.refs - 1, holds := w.holds + 1))
      else Lower(Go(s, a, Idle), w.(refs := 0));
    assert if w.refs > 1 then DropsToHold(s, a, t) else DropsLast(s, a, t);
    Gone(s, a, t);
  }

  lemma FreeGoes(s: State, a: Agent)
    requires a in s.pcs && (s.pcs[a].Dead? || s.pcs[a].Unpacked?)
    ensures CanGo(s, a)
  {
    hide CanGo;
    var t :=
      if s.pcs[a].Unpacked? then Go(s, a, Unholding(true)).(word := s.word.(holds := s.word.holds + 1))
      else if a.thread in s.freeing then Go(s, a, Idle).(parked := s.parked + multiset{a.thread})
      else Go(s, a, Dropping).(freeing := s.freeing + {a.thread});
    assert if s.pcs[a].Unpacked? then UnpacksLast(s, a, t)
           else if a.thread in s.freeing then ParksClosure(s, a, t) else FreesClosure(s, a, t);
    Gone(s, a, t);
  }

  lemma ApproachGoes(s: State, a: Agent)
    requires a in s.pcs && (s.pcs[a].Enter? || s.pcs[a].ReaperTest? || s.pcs[a].Top? || s.pcs[a].Deferring?)
    ensures CanGo(s, a)
  {
    hide CanGo;
    var p := s.pcs[a];
    var t :=
      if p.Enter? then Go(s, a, if s.done then ReaperTest(p.born) else Unholding(false))
      else if p.ReaperTest? then Go(s, a, if s.reaper == Some(a.thread) then Unholding(false) else Top(p.born))
      else if p.Top? then Go(s, a, if s.word.acts > 0 then Deferring(p.born) else Look(p.born))
      else Go(s, a, Idle).(deferred := s.deferred + 1);
    assert Approaches(s, t, a);
    Gone(s, a, t);
  }

  lemma ContendGoes(s: State, a: Agent)
    requires a in s.pcs && (s.pcs[a].Look? || s.pcs[a].Store? || s.pcs[a].Check? || s.pcs[a].Swap?)
    ensures CanGo(s, a)
  {
    hide CanGo;
    var p, w := s.pcs[a], s.word;
    var t :=
      if p.Look? then
        Go(s, a, if w.acts > 0 then Top(p.born) else if w.judging then Store(p.born) else Swap(p.born, w))
      else if p.Store? then Go(s, a, Check(p.born)).(pending := true, lastStore := s.begun)
      else if p.Check? then
        if w.judging then Go(s, a, Unholding(false)).(left := if p.born > s.left then p.born else s.left)
        else Go(s, a, Top(p.born))
      else if w == p.c0 then Go(s, a, Clear(p.born, w, s.ext.Keys)).(word := w.(judging := true))
      else Go(s, a, Top(p.born));
    assert Contends(s, t, a);
    Gone(s, a, t);
  }

  lemma InspectGoes(s: State, a: Agent)
    requires a in s.pcs && (s.pcs[a].Clear? || s.pcs[a].Read?)
    ensures CanGo(s, a)
  {
    hide CanGo, Rc, Count;
    var p := s.pcs[a];
    var t :=
      if p.Clear? then Go(s, a, Read(p.born, p.c0, p.seen, 0, {})).(pending := false, begun := s.begun + 1)
      else if p.i < |s.slots| then Go(s, a, Read(p.born, p.c0, p.seen, p.i + 1, p.known))
      else Go(s, a, Verdict(p.born, p.c0, p.seen, p.known));
    assert Inspects(s, t, a);
    Gone(s, a, t);
  }

  lemma DecideGoes(s: State, a: Agent)
    requires a in s.pcs && (s.pcs[a].Verdict? || s.pcs[a].Void? || s.pcs[a].Exchange?)
    ensures CanGo(s, a)
  {
    hide CanGo;
    var p := s.pcs[a];
    var t :=
      if p.Void? then Go(s, a, Top(p.born)).(word := s.word.(judging := false))
      else if p.Exchange? then Go(s, a, if s.pending then Top(p.born) else Unholding(false)).(pending := false)
      else if s.word != p.c0.(judging := true) then Go(s, a, Void(p.born))
      else if FindsGarbage(p) then Go(s, a, ReapStart).(garbage := true, stood := s.begun)
      else Go(s, a, Exchange(p.born)).(word := p.c0, stood := s.begun);
    assert Decides(s, t, a);
    Gone(s, a, t);
  }

  lemma ReapGoes(s: State, a: Agent)
    requires a in s.pcs && (s.pcs[a].ReapStart? || s.pcs[a].ReapEnd? || s.pcs[a].ReapFlag?)
    ensures CanGo(s, a)
  {
    hide CanGo, Rc, Count;
    var p := s.pcs[a];
    var t :=
      if p.ReapStart? then Go(s, a, Reap(0)).(reaper := Some(a.thread))
      else if p.ReapEnd? then Go(s, a, ReapFlag).(reaper := None)
      else Go(s, a, Unholding(false)).(word := s.word.(judging := false));
    assert Reaps(s, t, a);
    Gone(s, a, t);
  }

  lemma SweepGoes(s: State, a: Agent)
    requires a in s.pcs && s.pcs[a].Reap?
    ensures CanGo(s, a)
  {
    hide CanGo, Rc, Count;
    var i := s.pcs[a].i;
    var t :=
      if i >= |s.slots| then Go(s, a, ReapEnd)
      else if Counts(s, i) then Go(Emptied(s, i), a, ReapHeld(i)).(word := s.word.(holds := s.word.holds + 1))
      else Go(s, a, Reap(i + 1));
    hide Counts;
    assert if i >= |s.slots| then EndsSlots(s, a, t) else if Counts(s, i) then ReapsSlot(s, a, t) else PassesSlot(s, a,
          t);
    Gone(s, a, t);
  }

  lemma ReapReleaseGoes(s: State, a: Agent)
    requires Inv(s) && a in s.pcs
    requires s.pcs[a].ReapHeld? || s.pcs[a].ReapDead? || s.pcs[a].ReapDrop? || s.pcs[a].ReapUnhold?
    ensures CanGo(s, a)
  {
    hide CanGo, Inv;
    Counted(s, a);
    var p, w := s.pcs[a], s.word;
    var t :=
      if p.ReapHeld? then Lower(Go(s, a, ReapDead(p.i)), w.(holds := w.holds - 1))
      else if p.ReapUnhold? then Lower(Go(s, a, Reap(p.i + 1)), w.(holds := w.holds - 1))
      else if p.ReapDead? then
        if a.thread in s.freeing then Go(s, a, Reap(p.i + 1)).(parked := s.parked + multiset{a.thread})
        else Go(s, a, ReapDrop(p.i)).(freeing := s.freeing + {a.thread})
      else if w.refs > 1 then Go(s, a, ReapUnhold(p.i)).(word := w.(refs := w.refs - 1, holds := w.holds + 1))
      else Lower(Go(s, a, Reap(p.i + 1)), w.(refs := 0));
    assert ReapReleases(s, t, a);
    Gone(s, a, t);
  }

  /** In every state of every run, whoever is in the middle of something can go on; only a call that
   *  finds the flag up waits, and then the judge who has it up can. */
  lemma NeverStuck(ss: seq<State>, xs: seq<Label>, i: nat, a: Agent)
    requires Trace(ss, xs) && i < |ss| && a in ss[i].pcs && !ss[i].pcs[a].Idle?
    ensures if ss[i].pcs[a].Waiting? && ss[i].word.judging then exists b :: HasFlag(ss[i], b) && CanGo(ss[i], b)
            else CanGo(ss[i], a)
  {
    hide CanGo, Trace, Inv, HasFlag;
    RunKeeps(ss, xs, i);
    var s := ss[i];
    if s.pcs[a].Waiting? && s.word.judging {
      var b := FlagHolder(s);
      AgentGoes(s, b);
    } else {
      AgentGoes(s, a);
    }
  }

  ghost predicate HasFlag(s: State, b: Agent) { b in s.pcs && Plays(s.pcs[b], Flag) }

  lemma FlagHolder(s: State) returns (b: Agent)
    requires Inv(s) && s.word.judging
    ensures HasFlag(s, b) && b in s.pcs && !s.pcs[b].Waiting? && !s.pcs[b].Idle?
  {
    hide Honest, Agents, Doomed, Dated, Excluded;
    assert Who(s.pcs, Flag) != {};
    b :| b in Who(s.pcs, Flag);
  }

  lemma AgentGoes(s: State, a: Agent)
    requires Inv(s) && a in s.pcs && !s.pcs[a].Idle? && !(s.pcs[a].Waiting? && s.word.judging)
    ensures CanGo(s, a)
  {
    hide CanGo, Inv;
    match s.pcs[a]
    case Owner => CallGoes(s, a);
    case Clearing => CallGoes(s, a);
    case Plain => CallGoes(s, a);
    case Waiting => CallGoes(s, a);
    case Running => ExitGoes(s, a);
    case RelSeen(_) => ReleaseGoes(s, a);
    case RelUnheld(_) => ReleaseGoes(s, a);
    case RelHeld(_) => ReleaseGoes(s, a);
    case Unholding(_) => UnholdGoes(s, a);
    case Dropping => DropGoes(s, a);
    case Dead => FreeGoes(s, a);
    case Unpacked => FreeGoes(s, a);
    case Enter(_) => ApproachGoes(s, a);
    case ReaperTest(_) => ApproachGoes(s, a);
    case Top(_) => ApproachGoes(s, a);
    case Deferring(_) => ApproachGoes(s, a);
    case Look(_) => ContendGoes(s, a);
    case Store(_) => ContendGoes(s, a);
    case Check(_) => ContendGoes(s, a);
    case Swap(_, _) => ContendGoes(s, a);
    case Clear(_, _, _) => InspectGoes(s, a);
    case Read(_, _, _, _, _) => InspectGoes(s, a);
    case Verdict(_, _, _, _) => DecideGoes(s, a);
    case Void(_) => DecideGoes(s, a);
    case Exchange(_) => DecideGoes(s, a);
    case ReapHeld(_) => ReapReleaseGoes(s, a);
    case ReapDead(_) => ReapReleaseGoes(s, a);
    case ReapDrop(_) => ReapReleaseGoes(s, a);
    case ReapUnhold(_) => ReapReleaseGoes(s, a);
    case Reap(_) => SweepGoes(s, a);
    case _ => ReapGoes(s, a);
  }

  /** Whoever is idle can take up a judgement that was deferred, call or let go of a closure that somebody
   *  outside holds, drain its thread's worklist, and leave obj_free once that is empty. */
  lemma IdleCan(s: State, a: Agent, c: Closure)
    requires a in s.pcs && s.pcs[a].Idle?
    ensures s.deferred > 0 ==> GoesTo(s, a, Enter(s.begun))
    ensures HeldOutside(s, c) ==>
      GoesTo(s, a, if s.word.judging && s.reaper != Some(a.thread) then Waiting else Running)
    ensures HeldOutside(s, c) ==> GoesTo(s, a, if s.done then RelSeen(c) else RelUnheld(c))
    ensures a.thread in s.parked ==> GoesTo(s, a, Dropping)
    ensures a.thread in s.crated ==> GoesTo(s, a, Unpacked)
    ensures a.thread !in s.parked && a.thread !in s.crated ==> Turns(s, s.(freeing := s.freeing - {a.thread}))
  {
    hide GoesTo, HeldOutside, Turns;
    if a.thread !in s.parked && a.thread !in s.crated { CanLeave(s, a); }
    if HeldOutside(s, c) {
      CanCall(s, a, c);
      CanRelease(s, a, c);
    }
    CanTakeUp(s, a, c);
  }

  ghost predicate Turns(s: State, t: State) { exists x: Label :: Step(s, x, t) }

  lemma CanLeave(s: State, a: Agent)
    requires a.thread !in s.parked && a.thread !in s.crated
    ensures Turns(s, s.(freeing := s.freeing - {a.thread}))
  {
    assert EndsFreeing(s, a, s.(freeing := s.freeing - {a.thread}));
    hide EndsFreeing;
    assert Step(s, Plainly(a), s.(freeing := s.freeing - {a.thread}));
  }

  lemma CanCall(s: State, a: Agent, c: Closure)
    requires a in s.pcs && s.pcs[a].Idle? && HeldOutside(s, c)
    ensures GoesTo(s, a, if s.word.judging && s.reaper != Some(a.thread) then Waiting else Running)
  {
    hide GoesTo, HeldOutside;
    var w := s.word;
    var t := Go(s, a, if w.judging && s.reaper != Some(a.thread) then Waiting else Running)
      .(word := w.(refs := w.refs + 1, acts := w.acts + 1));
    assert Enters(s, a, c, t);
    Went(s, a, c, t);
  }

  lemma CanRelease(s: State, a: Agent, c: Closure)
    requires a in s.pcs && s.pcs[a].Idle? && HeldOutside(s, c)
    ensures GoesTo(s, a, if s.done then RelSeen(c) else RelUnheld(c))
  {
    hide GoesTo, HeldOutside;
    var t := Go(s, a, if s.done then RelSeen(c) else RelUnheld(c));
    assert BeginsRelease(s, a, c, t);
    Went(s, a, c, t);
  }

  lemma CanTakeUp(s: State, a: Agent, c: Closure)
    requires a in s.pcs && s.pcs[a].Idle?
    ensures s.deferred > 0 ==> GoesTo(s, a, Enter(s.begun))
    ensures a.thread in s.parked ==> GoesTo(s, a, Dropping)
    ensures a.thread in s.crated ==> GoesTo(s, a, Unpacked)
  {
    hide GoesTo;
    if s.deferred > 0 {
      var t := Go(s, a, Enter(s.begun)).(deferred := s.deferred - 1);
      assert Picks(s, a, t);
      Went(s, a, c, t);
    }
    if a.thread in s.parked {
      var t := Go(s, a, Dropping).(parked := s.parked - multiset{a.thread});
      assert DrainsClosure(s, a, t);
      Went(s, a, c, t);
    }
    if a.thread in s.crated {
      var t := Go(s, a, Unpacked).(crated := s.crated - multiset{a.thread});
      assert Unpacks(s, a, t);
      Went(s, a, c, t);
    }
  }

  ghost predicate GoesTo(s: State, a: Agent, p: Pc) {
    exists x: Label, t: State :: Goes(s, a, x, t) && t.pcs[a] == p
  }

  lemma Went(s: State, a: Agent, c: Closure, t: State)
    requires a in s.pcs && a in t.pcs && t.pcs[a] != s.pcs[a]
    requires Picks(s, a, t) || Enters(s, a, c, t) || BeginsRelease(s, a, c, t) || DrainsClosure(s, a, t)
             || Unpacks(s, a, t)
    ensures GoesTo(s, a, t.pcs[a])
  {
    hide Picks, Enters, BeginsRelease, DrainsClosure, Unpacks;
    assert Step(s, Label(a, c, 0, 0), t);
    assert Goes(s, a, Label(a, c, 0, 0), t);
  }

  /* -------------------------------------------------------- an undisturbed judgement */

  /** A step of the judge up to its verdict; it counts each place it comes to that holds a closure as
   *  HeldOnce says, so it is deep and its budget does not run out. */
  ghost predicate Judges(s: State, t: State, a: Agent) {
    && a in s.pcs && (Approaches(s, t, a) || Contends(s, t, a) || Inspects(s, t, a) || Decides(s, t, a))
    && (s.pcs[a].Read? && s.pcs[a].i < |s.slots| && Countable(s, s.pcs[a].i) ==>
          a in t.pcs && t.pcs[a].Read? && s.slots[s.pcs[a].i].clo.value in t.pcs[a].known)
  }

  ghost predicate Countable(s: State, i: nat) {
    i < |s.slots| && s.slots[i].clo.Some? && s.slots[i].extra == 0 && HeldOnce(s, s.slots[i].clo.value)
  }

  /** Such a place can always be counted. */
  lemma CountableCounts(s: State, a: Agent)
    requires a in s.pcs && s.pcs[a].Read? && Countable(s, s.pcs[a].i)
    ensures exists t :: ReadsSlot(s, a, true, t) && Judges(s, t, a)
  {
    var p := s.pcs[a];
    var c := s.slots[p.i].clo.value;
    HeldOnceIsOwned(s, c);
    var t := Go(s, a, Read(p.born, p.c0, p.seen, p.i + 1, p.known + {c}));
    assert ReadsSlot(s, a, true, t);
  }

  /** The frame's function has returned, no call is in progress, no flag is up, and the judge is not
   *  called from its own thread's clearing. */
  predicate Quiescent(s: State, a: Agent) {
    s.done && s.word.acts == 0 && !s.word.judging && s.reaper != Some(a.thread)
  }

  /** Where an undisturbed judgement of state o has come to. */
  ghost predicate Underway(o: State, s: State, a: Agent) {
    && a in s.pcs && s.slots == o.slots && s.ext == o.ext && s.done && s.reaper == o.reaper
    && match s.pcs[a]
       case Enter(_) => s.word == o.word
       case ReaperTest(_) => s.word == o.word
       case Top(_) => s.word == o.word
       case Look(_) => s.word == o.word
       case Swap(_, c0) => s.word == o.word == c0
       case Clear(_, c0, _) => c0 == o.word && s.word == c0.(judging := true)
       case Read(_, c0, _, i, known) =>
         c0 == o.word && s.word == c0.(judging := true) && i <= |s.slots| && KnownTo(s, i, known)
       case Verdict(_, c0, _, known) =>
         c0 == o.word && s.word == c0.(judging := true) && KnownTo(s, |s.slots|, known)
       case ReapStart => OnlyItsOwn(o)
       case Exchange(_) => !OnlyItsOwn(o)
       case _ => false
  }

  ghost predicate KnownTo(s: State, i: nat, known: set<Closure>) {
    forall j: nat | j < i && Countable(s, j) :: s.slots[j].clo.value in known
  }

  lemma SameOwn(o: State, s: State)
    requires s.slots == o.slots && s.ext == o.ext && s.word.refs == o.word.refs
    ensures OnlyItsOwn(s) <==> OnlyItsOwn(o)
    ensures forall i: nat :: Countable(s, i) <==> Countable(o, i)
  {
    assert forall c :: HeldOnce(s, c) <==> HeldOnce(o, c);
  }

  lemma KnownIsThorough(s: State, known: set<Closure>)
    requires KnownTo(s, |s.slots|, known)
    ensures Thorough(s, known)
  {
    hide HeldOnce;
    forall i | 0 <= i < |s.slots| && s.slots[i].clo.Some? && s.slots[i].extra == 0
               && HeldOnce(s, s.slots[i].clo.value) ensures s.slots[i].clo.value in known {
      assert Countable(s, i);
    }
  }

  /** Which steps are taken where. */
  lemma WhereApproached(s: State, t: State, a: Agent)
    requires a in s.pcs && Approaches(s, t, a)
    ensures var p := s.pcs[a]; p.Idle? || p.Enter? || p.ReaperTest? || p.Top? || p.Deferring?
  {}

  lemma WhereContended(s: State, t: State, a: Agent)
    requires a in s.pcs && Contends(s, t, a)
    ensures var p := s.pcs[a]; p.Look? || p.Store? || p.Check? || p.Swap?
  {}

  lemma WhereInspected(s: State, t: State, a: Agent)
    requires a in s.pcs && Inspects(s, t, a)
    ensures s.pcs[a].Clear? || s.pcs[a].Read?
  {
    hide Rc, Count;
  }

  lemma WhereDecided(s: State, t: State, a: Agent)
    requires a in s.pcs && Decides(s, t, a)
    ensures var p := s.pcs[a]; p.Verdict? || p.Void? || p.Exchange?
  {
    hide FindsGarbage;
  }

  lemma UnderwayApproach(o: State, s: State, a: Agent, t: State)
    requires Quiescent(o, a) && Underway(o, s, a) && Approaches(s, t, a)
    ensures Underway(o, t, a)
  {
    WhereApproached(s, t, a);
    hide OnlyItsOwn, KnownTo;
  }

  lemma UnderwayContend(o: State, s: State, a: Agent, t: State)
    requires Quiescent(o, a) && Underway(o, s, a) && Contends(s, t, a)
    ensures Underway(o, t, a)
  {
    WhereContended(s, t, a);
    hide OnlyItsOwn, KnownTo;
  }

  lemma UnderwayVerdict(o: State, s: State, a: Agent, t: State)
    requires Inv(s) && Underway(o, s, a) && Decides(s, t, a) && s.pcs[a].Verdict?
    ensures Underway(o, t, a)
  {
    hide Inv, OnlyItsOwn, HeldOnce, Rc, Count, FindsGarbage;
    KnownIsThorough(s, s.pcs[a].known);
    VerdictStep(s, a, t);
    SameOwn(o, s);
    VerdictLeaves(s, a, t);
  }

  lemma UnderwayStep(o: State, s: State, a: Agent, t: State)
    requires Inv(s) && Quiescent(o, a) && Underway(o, s, a) && Judges(s, t, a)
    requires !s.pcs[a].ReapStart? && !s.pcs[a].Exchange?
    ensures Underway(o, t, a)
  {
    hide Inv, Quiescent, Approaches, Contends, Inspects, Decides, OnlyItsOwn, KnownTo, Countable;
    if Approaches(s, t, a) {
      UnderwayApproach(o, s, a, t);
    } else if Contends(s, t, a) {
      UnderwayContend(o, s, a, t);
    } else if Inspects(s, t, a) {
      WhereInspected(s, t, a);
      UnderwayReads(o, s, a, t);
    } else {
      WhereDecided(s, t, a);
      UnderwayVerdict(o, s, a, t);
    }
  }

  lemma VerdictLeaves(s: State, a: Agent, t: State)
    requires a in s.pcs && s.pcs[a].Verdict? && Decides(s, t, a)
    ensures t.slots == s.slots && t.ext == s.ext && t.done == s.done && t.reaper == s.reaper
  {
    hide FindsGarbage;
  }

  lemma UnderwayReads(o: State, s: State, a: Agent, t: State)
    requires Underway(o, s, a) && Judges(s, t, a) && Inspects(s, t, a) && (s.pcs[a].Read? || s.pcs[a].Clear?)
    ensures Underway(o, t, a)
  {
    hide Inspects, Judges;
    if s.pcs[a].Clear? { ReadBegins(s, t, a); } else { ReadStep(s, t, a); }
    SameCountable(s, t);
    if s.pcs[a].Read? && s.pcs[a].i < |s.slots| && Countable(s, s.pcs[a].i) { JudgesCounts(s, t, a); }
    hide OnlyItsOwn, Countable;
    var p := s.pcs[a];
    if p.Read? && p.i < |s.slots| {
      forall j: nat | j < p.i + 1 && Countable(t, j) ensures t.slots[j].clo.value in t.pcs[a].known {
        assert Countable(s, j);
      }
    } else if p.Read? {
      forall j: nat | j < |s.slots| && Countable(t, j) ensures t.slots[j].clo.value in p.known {
        assert Countable(s, j);
      }
    }
  }

  /** What a reading step does. */
  lemma ReadBegins(s: State, t: State, a: Agent)
    requires a in s.pcs && s.pcs[a].Clear? && Inspects(s, t, a)
    ensures var p := s.pcs[a];
      t == Go(s, a, Read(p.born, p.c0, p.seen, 0, {})).(pending := false, begun := s.begun + 1)
  {}

  lemma ReadStep(s: State, t: State, a: Agent)
    requires a in s.pcs && s.pcs[a].Read? && Inspects(s, t, a)
    ensures var p := s.pcs[a];
      if p.i < |s.slots| then exists more: set<Closure> :: t == Go(s, a, ReadOn(p, more))
      else t == Go(s, a, Verdict(p.born, p.c0, p.seen, p.known))
  {
    hide Rc, Count;
    var p := s.pcs[a];
    if p.i < |s.slots| {
      if ReadsSlot(s, a, true, t) {
        assert t == Go(s, a, ReadOn(p, {s.slots[p.i].clo.value}));
      } else {
        assert p.known + {} == p.known;
        assert t == Go(s, a, ReadOn(p, {}));
      }
    }
  }

  ghost function ReadOn(p: Pc, more: set<Closure>): Pc
    requires p.Read?
  {
    Read(p.born, p.c0, p.seen, p.i + 1, p.known + more)
  }

  lemma JudgesCounts(s: State, t: State, a: Agent)
    requires a in s.pcs && s.pcs[a].Read? && s.pcs[a].i < |s.slots| && Countable(s, s.pcs[a].i) && Judges(s, t, a)
    ensures a in t.pcs && t.pcs[a].Read? && s.slots[s.pcs[a].i].clo.value in t.pcs[a].known
  {
    hide Approaches, Contends, Inspects, Decides, HeldOnce;
  }

  lemma SameCountable(s: State, t: State)
    requires t.slots == s.slots && t.ext == s.ext
    ensures forall i: nat :: Countable(s, i) <==> Countable(t, i)
  {
    assert forall c :: HeldOnce(s, c) <==> HeldOnce(t, c);
  }

  /** A judgement that nobody disturbs comes to no end but its verdict, and condemns the frame exactly
   *  when every reference to it is of its own. */
  lemma {:induction false} JudgesRightly(ss: seq<State>, xs: seq<Label>, i: nat, j: nat, a: Agent)
    requires Trace(ss, xs) && i <= j < |ss| && a in ss[i].pcs && ss[i].pcs[a].Enter? && Quiescent(ss[i], a)
    requires forall k | i <= k < j ::
        Judges(ss[k], ss[k + 1], a) && !ss[k].pcs[a].ReapStart? && !ss[k].pcs[a].Exchange?
    ensures a in ss[j].pcs
    ensures var p := ss[j].pcs[a];
      p.Enter? || p.ReaperTest? || p.Top? || p.Look? || p.Swap? || p.Clear? || p.Read? || p.Verdict? || p.ReapStart?
      || p.Exchange?
    ensures ss[j].pcs[a].ReapStart? ==> OnlyItsOwn(ss[i])
    ensures ss[j].pcs[a].Exchange? ==> !OnlyItsOwn(ss[i])
  {
    UnderwayAt(ss, xs, i, j, a);
  }

  lemma {:induction false} UnderwayAt(ss: seq<State>, xs: seq<Label>, i: nat, j: nat, a: Agent)
    requires Trace(ss, xs) && i <= j < |ss| && a in ss[i].pcs && ss[i].pcs[a].Enter? && Quiescent(ss[i], a)
    requires forall k | i <= k < j ::
        Judges(ss[k], ss[k + 1], a) && !ss[k].pcs[a].ReapStart? && !ss[k].pcs[a].Exchange?
    ensures Underway(ss[i], ss[j], a)
    decreases j
  {
    hide Trace, Inv, Judges, Underway, Quiescent;
    if j > i {
      assert ss[j - 1 + 1] == ss[j];
      UnderwayAt(ss, xs, i, j - 1, a);
      RunKeeps(ss, xs, j - 1);
      assert Judges(ss[j - 1], ss[j - 1 + 1], a);
      UnderwayStep(ss[i], ss[j - 1], a, ss[j]);
    } else {
      UnderwayFirst(ss[i], a);
    }
  }

  lemma UnderwayFirst(s: State, a: Agent)
    requires a in s.pcs && s.pcs[a].Enter? && Quiescent(s, a)
    ensures Underway(s, s, a)
  {}

  /* -------------------------------------------------------- who lets go judges */

  lemma DropsInCalls(s: State, t: State, a: Agent, c: Closure)
    requires Calls(s, t, a, c) && t.word.refs < s.word.refs
    ensures a in s.pcs && s.pcs[a].Running? && a in t.pcs
  {
    hide N, Rc, HeldOutside;
  }

  lemma DropsInReleases(s: State, t: State, a: Agent, c: Closure)
    requires Releases(s, t, a, c) && t.word.refs < s.word.refs
    ensures a in s.pcs && s.pcs[a].Dropping? && a in t.pcs && (t.word.refs > 0 ==> t.pcs[a] == Enter(s.begun))
  {
    hide N, Rc, HeldOutside;
  }

  lemma NoDropsInCode(s: State, t: State, a: Agent, c: Closure, i: nat)
    requires MakesClosure(s, a, c, t) || Loads(s, a, i, t) || Puts(s, a, i, c, t)
    ensures t.word.refs >= s.word.refs
  {
    hide N, Rc, Count, HeldOutside, MayWrite;
  }

  lemma NoDropsBeside(s: State, t: State, a: Agent, c: Closure, i: nat, extra: nat)
    requires Takes(s, a, i, t) || Shares(s, c, t) || Contains(s, a, i, extra, t)
    ensures t.word.refs >= s.word.refs
  {
    hide N, Rc, Count, HeldOutside, MayWrite;
  }

  lemma NoDropsMutating(s: State, t: State, x: Label)
    requires Mutates(s, t, x.a, x.c, x.i, x.extra)
    ensures t.word.refs >= s.word.refs
  {
    hide MakesClosure, Loads, Puts, Takes, Shares, Contains;
    if MakesClosure(s, x.a, x.c, t) || Loads(s, x.a, x.i, t) || Puts(s, x.a, x.i, x.c, t) {
      NoDropsInCode(s, t, x.a, x.c, x.i);
    } else {
      NoDropsBeside(s, t, x.a, x.c, x.i, x.extra);
    }
  }

  lemma NoDropsInDrains(s: State, t: State, a: Agent)
    requires Drains(s, t, a)
    ensures t.word.refs >= s.word.refs
  {
    hide BeginsFreeing, EndsFreeing;
    if BeginsFreeing(s, a, t) || EndsFreeing(s, a, t) { FreeingOnly(s, t, a); }
  }

  lemma FreeingOnly(s: State, t: State, a: Agent)
    requires BeginsFreeing(s, a, t) || EndsFreeing(s, a, t)
    ensures t.word == s.word
  {}

  lemma NoDropsNearing(s: State, t: State, a: Agent)
    requires Approaches(s, t, a)
    ensures t.word.refs >= s.word.refs
  {}

  lemma NoDropsContending(s: State, t: State, a: Agent)
    requires Contends(s, t, a)
    ensures t.word.refs >= s.word.refs
  {}

  lemma NoDropsReading(s: State, t: State, a: Agent)
    requires Inspects(s, t, a)
    ensures t.word.refs >= s.word.refs
  {
    hide Rc, Count, Counts;
  }

  lemma NoDropsLater(s: State, t: State, a: Agent)
    requires Decides(s, t, a) || Reaps(s, t, a)
    requires a in s.pcs && s.pcs[a].Verdict? ==> s.word.refs == s.pcs[a].c0.refs || !Acquits(s, a, t)
    ensures t.word.refs >= s.word.refs
  {
    hide N, Rc, Count, Counts, FindsGarbage;
    if Reaps(s, t, a) {
      NoDropsReaping(s, t, a);
    } else {
      hide Reaps;
    }
  }

  lemma NoDropsReaping(s: State, t: State, a: Agent)
    requires Reaps(s, t, a)
    ensures t.word.refs >= s.word.refs
  {
    hide N, Rc, Count, Counts;
  }

  lemma DropsInReaping(s: State, t: State, a: Agent)
    requires ReapReleases(s, t, a) && t.word.refs < s.word.refs
    ensures a in s.pcs && s.pcs[a].ReapDrop? && a in t.pcs
  {}

  /** Whoever gives up a reference while others remain judges the frame next, unless it is a call that
   *  ends, or the reaper. */
  lemma DropsAreJudged(ss: seq<State>, xs: seq<Label>, i: nat)
    requires Trace(ss, xs) && i < |xs| && 0 < ss[i + 1].word.refs < ss[i].word.refs
    ensures xs[i].a in ss[i].pcs && xs[i].a in ss[i + 1].pcs
    ensures ss[i].pcs[xs[i].a].Running? || ss[i].pcs[xs[i].a].ReapDrop? || ss[i + 1].pcs[xs[i].a].Enter?
  {
    var s, x, t := ss[i], xs[i], ss[i + 1];
    assert Step(s, x, t);
    hide Trace, Mutates, Calls, Releases, Drains, Approaches, Contends, Inspects, Decides, Reaps, ReapReleases;
    if Calls(s, t, x.a, x.c) {
      DropsInCalls(s, t, x.a, x.c);
    } else if Releases(s, t, x.a, x.c) {
      DropsInReleases(s, t, x.a, x.c);
    } else if ReapReleases(s, t, x.a) {
      DropsInReaping(s, t, x.a);
    } else if Decides(s, t, x.a) || Reaps(s, t, x.a) {
      AcquitsSame(s, t, x.a);
      NoDropsLater(s, t, x.a);
    } else if Mutates(s, t, x.a, x.c, x.i, x.extra) {
      NoDropsMutating(s, t, x);
    } else if Drains(s, t, x.a) {
      NoDropsInDrains(s, t, x.a);
    } else if Inspects(s, t, x.a) {
      NoDropsReading(s, t, x.a);
    } else if Contends(s, t, x.a) {
      NoDropsContending(s, t, x.a);
    } else {
      NoDropsNearing(s, t, x.a);
    }
  }

  lemma AcquitsSame(s: State, t: State, a: Agent)
    ensures a in s.pcs && s.pcs[a].Verdict? ==> s.word.refs == s.pcs[a].c0.refs || !Acquits(s, a, t)
  {
    hide FindsGarbage;
  }

  /** And whoever, holding the finished frame, leaves a closure with one holder judges it too. */
  lemma LastHolderJudged(s: State, a: Agent, t: State)
    requires a in s.pcs && s.pcs[a].RelHeld? && DropsClosure(s, a, t) && Rc(s, s.pcs[a].c) == 2
    ensures a in t.pcs && t.pcs[a] == Enter(s.begun)
  {
    hide Count;
  }
}
