/** A run in which a condemned frame outlives its reaping: the judge is inside obj_free, so the closure
 *  it takes out of the register is only parked. */
module FrameParked {
  import opened Options
  import opened FrameProtocol
  import opened FrameTheorem

  /** The activation on thread 0, and a release on thread 1. */
  const MAKER := Agent(0, 0)
  const HOLDER := Agent(1, 0)

  function Two(maker: Pc, holder: Pc): map<Agent, Pc> {
    map[MAKER := maker, HOLDER := holder]
  }

  lemma MakerGoes(x: Pc, y: Pc, p: Pc)
    ensures Two(x, y)[MAKER := p] == Two(p, y)
  {}

  lemma HolderGoes(x: Pc, y: Pc, p: Pc)
    ensures Two(x, y)[HOLDER := p] == Two(x, p)
  {}

  /** The run goes on from state s to t. */
  ghost predicate Reaches(s: State, t: State) {
    exists ss: seq<State>, xs: seq<Label> :: Leads(s, ss, xs, t)
  }

  predicate Leads(s: State, ss: seq<State>, xs: seq<Label>, t: State) {
    && |ss| == |xs| + 1 && ss[0] == s && ss[|xs|] == t
    && forall i | 0 <= i < |xs| :: Step(ss[i], xs[i], ss[i + 1])
  }

  lemma Stays(s: State)
    ensures Reaches(s, s)
  {
    assert Leads(s, [s], [], s);
  }

  lemma Onward(s: State, m: State, x: Label, t: State)
    requires Reaches(s, m) && Step(m, x, t)
    ensures Reaches(s, t)
  {
    hide Step;
    var ss: seq<State>, xs: seq<Label> :| Leads(s, ss, xs, m);
    assert Leads(s, ss + [t], xs + [x], t);
  }

  lemma Joined(s: State, m: State, t: State)
    requires Reaches(s, m) && Reaches(m, t)
    ensures Reaches(s, t)
  {
    hide Step;
    var ss: seq<State>, xs: seq<Label> :| Leads(s, ss, xs, m);
    var ts: seq<State>, ys: seq<Label> :| Leads(m, ts, ys, t);
    assert Leads(s, ss + ts[1..], xs + ys, t);
  }

  function By(a: Agent, c: Closure): Label {
    Label(a, c, 0, 0)
  }

  /* -------------------------------------------------------- the states on the way */

  /** A function with one captured register, just begun. */
  function Begun(): State {
    State(Word(1, 0, 0, false), false, false, None, 0, 0, [Slot(None, 0)], map[], Two(Owner, Idle),
          {}, multiset{}, multiset{}, false, 0, 0, -1, -1)
  }

  /** It has put closure 0 into the register, and handed closure 1 to somebody. */
  function Made(): State {
    Begun().(word := Word(3, 0, 0, false), slots := [Slot(Some(0), 0)], ext := map[0 := 0, 1 := 1])
  }

  /** It has returned; its activation drops its reference. */
  function Returned(): State {
    Made().(word := Word(2, 0, 1, false), done := true, pcs := Two(Enter(0), Idle))
  }

  /** Who has closure 1 lets it go. */
  function Died(): State {
    Returned().(ext := map[0 := 0], word := Word(2, 0, 2, false), pcs := Two(Enter(0), Unholding(true)))
  }

  /** Inside obj_free it drops the closure's reference. */
  function Dropped(): State {
    Died().(word := Word(1, 0, 2, false), freeing := {1}, pcs := Two(Enter(0), Enter(0)))
  }

  /** Nobody else is judging. */
  function Free(): State {
    Dropped().(pcs := Two(Enter(0), Swap(0, Word(1, 0, 2, false))))
  }

  /** It has read the registers: the one reference left is closure 0's. */
  function Judged(): State {
    Free().(word := Word(1, 0, 2, true), begun := 1,
            pcs := Two(Enter(0), Verdict(0, Word(1, 0, 2, false), {0}, {0})))
  }

  /** It has taken the closure out of the register. */
  function Taken(): State {
    Judged().(word := Word(1, 0, 3, true), slots := [Slot(None, 0)], ext := map[], garbage := true, stood := 1,
              reaper := Some(1), pcs := Two(Enter(0), ReapHeld(0)))
  }

  /** It has parked the closure and been through all registers. */
  function Passed(): State {
    Taken().(word := Word(1, 0, 2, true), parked := multiset{1}, pcs := Two(Enter(0), ReapEnd))
  }

  /** It has lowered the flag. */
  function Lowered(): State {
    Passed().(word := Word(1, 0, 2, false), reaper := None, pcs := Two(Enter(0), Unholding(false)))
  }

  /* -------------------------------------------------------- the steps */

  lemma ToMade()
    ensures Reaches(Begun(), Made())
  {
    var s := Begun();
    var s1 := s.(word := Word(2, 0, 0, false), ext := map[0 := 1]);
    var s2 := s1.(ext := map[0 := 0], slots := [Slot(Some(0), 0)]);
    hide N, Count;
    assert map[0 := 1][0 := 0] == map[0 := 0] && map[0 := 0][1 := 1] == map[0 := 0, 1 := 1];
    NobodyPlays(s1.pcs, Letting(0));
    assert MakesClosure(s, MAKER, 0, s1);
    assert Puts(s1, MAKER, 0, 0, s2);
    assert MakesClosure(s2, MAKER, 1, Made());
    Stays(s);
    Onward(s, s, By(MAKER, 0), s1);
    Onward(s, s1, By(MAKER, 0), s2);
    Onward(s, s2, By(MAKER, 1), Made());
  }

  lemma ToReturned()
    ensures Reaches(Made(), Returned())
  {
    var s := Made();
    var s1 := s.(done := true, pcs := Two(Clearing, Idle));
    var s2 := s1.(pcs := Two(Dropping, Idle));
    MakerGoes(Owner, Idle, Clearing);
    MakerGoes(Clearing, Idle, Dropping);
    MakerGoes(Dropping, Idle, Enter(0));
    assert Finishes(s, MAKER, s1);
    assert Leaves(s1, MAKER, s2);
    assert DropsToHold(s2, MAKER, Returned());
    Stays(s);
    Onward(s, s, By(MAKER, 0), s1);
    Onward(s, s1, By(MAKER, 0), s2);
    Onward(s, s2, By(MAKER, 0), Returned());
  }

  lemma ToDied()
    ensures Reaches(Returned(), Died())
  {
    var s := Returned();
    var s1 := s.(pcs := Two(Enter(0), RelSeen(1)));
    var s2 := s1.(word := Word(2, 0, 2, false), pcs := Two(Enter(0), RelHeld(1)));
    hide N;
    HolderGoes(Enter(0), Idle, RelSeen(1));
    HolderGoes(Enter(0), RelSeen(1), RelHeld(1));
    HolderGoes(Enter(0), RelHeld(1), Unholding(true));
    assert map[0 := 0, 1 := 1] - {1} == map[0 := 0];
    NobodyPlays(s.pcs, Letting(1));
    assert Count([Slot(Some(0), 0)], 1) == 0;
    assert BeginsRelease(s, HOLDER, 1, s1);
    assert TakesHold(s1, HOLDER, s2);
    assert DropsClosure(s2, HOLDER, Died());
    Stays(s);
    Onward(s, s, By(HOLDER, 1), s1);
    Onward(s, s1, By(HOLDER, 1), s2);
    Onward(s, s2, By(HOLDER, 1), Died());
  }

  lemma ToDropped()
    ensures Reaches(Died(), Dropped())
  {
    var s := Died();
    var s1 := s.(word := Word(2, 0, 1, false), pcs := Two(Enter(0), Dead));
    var s2 := s1.(freeing := {1}, pcs := Two(Enter(0), Dropping));
    HolderGoes(Enter(0), Unholding(true), Dead);
    HolderGoes(Enter(0), Dead, Dropping);
    HolderGoes(Enter(0), Dropping, Enter(0));
    assert Unholds(s, HOLDER, s1);
    assert FreesClosure(s1, HOLDER, s2);
    assert DropsToHold(s2, HOLDER, Dropped());
    Stays(s);
    Onward(s, s, By(HOLDER, 1), s1);
    Onward(s, s1, By(HOLDER, 1), s2);
    Onward(s, s2, By(HOLDER, 1), Dropped());
  }

  lemma ToFree()
    ensures Reaches(Dropped(), Free())
  {
    var s := Dropped();
    var s1 := s.(pcs := Two(Enter(0), ReaperTest(0)));
    var s2 := s1.(pcs := Two(Enter(0), Top(0)));
    var s3 := s2.(pcs := Two(Enter(0), Look(0)));
    HolderGoes(Enter(0), Enter(0), ReaperTest(0));
    HolderGoes(Enter(0), ReaperTest(0), Top(0));
    HolderGoes(Enter(0), Top(0), Look(0));
    HolderGoes(Enter(0), Look(0), Swap(0, Word(1, 0, 2, false)));
    assert TestsDone(s, HOLDER, s1);
    assert TestsReaper(s1, HOLDER, s2);
    assert TestsActs(s2, HOLDER, s3);
    assert Looks(s3, HOLDER, Free());
    Stays(s);
    Onward(s, s, By(HOLDER, 0), s1);
    Onward(s, s1, By(HOLDER, 0), s2);
    Onward(s, s2, By(HOLDER, 0), s3);
    Onward(s, s3, By(HOLDER, 0), Free());
  }

  lemma ToJudged()
    ensures Reaches(Free(), Judged())
  {
    var s, c0 := Free(), Word(1, 0, 2, false);
    var s1 := s.(word := Word(1, 0, 2, true), pcs := Two(Enter(0), Clear(0, c0, {0})));
    var s2 := s1.(begun := 1, pcs := Two(Enter(0), Read(0, c0, {0}, 0, {})));
    var s3 := s2.(pcs := Two(Enter(0), Read(0, c0, {0}, 1, {0})));
    HolderGoes(Enter(0), Swap(0, c0), Clear(0, c0, {0}));
    HolderGoes(Enter(0), Clear(0, c0, {0}), Read(0, c0, {0}, 0, {}));
    HolderGoes(Enter(0), Read(0, c0, {0}, 0, {}), Read(0, c0, {0}, 1, {0}));
    HolderGoes(Enter(0), Read(0, c0, {0}, 1, {0}), Verdict(0, c0, {0}, {0}));
    assert s.ext.Keys == {0} && {} + {0} == {0};
    assert Count([Slot(Some(0), 0)], 0) == 1;
    assert Raises(s, HOLDER, s1);
    assert BeginsReading(s1, HOLDER, s2);
    assert ReadsSlot(s2, HOLDER, true, s3);
    assert EndsReading(s3, HOLDER, Judged());
    Stays(s);
    Onward(s, s, By(HOLDER, 0), s1);
    Onward(s, s1, By(HOLDER, 0), s2);
    Onward(s, s2, By(HOLDER, 0), s3);
    Onward(s, s3, By(HOLDER, 0), Judged());
  }

  lemma ToTaken()
    ensures Reaches(Judged(), Taken())
  {
    var s, c0 := Judged(), Word(1, 0, 2, false);
    var s1 := s.(garbage := true, stood := 1, pcs := Two(Enter(0), ReapStart));
    var s2 := s1.(reaper := Some(1), pcs := Two(Enter(0), Reap(0)));
    HolderGoes(Enter(0), Verdict(0, c0, {0}, {0}), ReapStart);
    HolderGoes(Enter(0), ReapStart, Reap(0));
    HolderGoes(Enter(0), Reap(0), ReapHeld(0));
    assert map[0 := 0] - {0} == map[];
    assert Count([Slot(Some(0), 0)], 0) == 1;
    assert Condemns(s, HOLDER, s1);
    assert BeginsReaping(s1, HOLDER, s2);
    assert ReapsSlot(s2, HOLDER, Taken());
    Stays(s);
    Onward(s, s, By(HOLDER, 0), s1);
    Onward(s, s1, By(HOLDER, 0), s2);
    Onward(s, s2, By(HOLDER, 0), Taken());
  }

  lemma ToPassed()
    ensures Reaches(Taken(), Passed())
  {
    var s := Taken();
    var s1 := s.(word := Word(1, 0, 2, true), pcs := Two(Enter(0), ReapDead(0)));
    var s2 := s1.(parked := multiset{1}, pcs := Two(Enter(0), Reap(1)));
    HolderGoes(Enter(0), ReapHeld(0), ReapDead(0));
    HolderGoes(Enter(0), ReapDead(0), Reap(1));
    HolderGoes(Enter(0), Reap(1), ReapEnd);
    assert ReapUnholds(s, HOLDER, s1);
    assert ReapParks(s1, HOLDER, s2);
    assert EndsSlots(s2, HOLDER, Passed());
    Stays(s);
    Onward(s, s, By(HOLDER, 0), s1);
    Onward(s, s1, By(HOLDER, 0), s2);
    Onward(s, s2, By(HOLDER, 0), Passed());
  }

  lemma ToLowered()
    ensures Reaches(Passed(), Lowered())
  {
    var s := Passed();
    var s1 := s.(reaper := None, pcs := Two(Enter(0), ReapFlag));
    HolderGoes(Enter(0), ReapEnd, ReapFlag);
    HolderGoes(Enter(0), ReapFlag, Unholding(false));
    assert EndsReaping(s, HOLDER, s1);
    assert LowersFlag(s1, HOLDER, Lowered());
    Stays(s);
    Onward(s, s, By(HOLDER, 0), s1);
    Onward(s, s1, By(HOLDER, 0), Lowered());
  }

  lemma Starts()
    ensures Init(Begun())
  {
    assert Who(Two(Owner, Idle), Own) == {MAKER} && Who(Two(Owner, Idle), Ref) == {MAKER};
  }

  lemma AllTheWay()
    ensures Reaches(Begun(), Lowered())
  {
    hide *;
    ToMade();
    ToReturned();
    Joined(Begun(), Made(), Returned());
    ToDied();
    Joined(Begun(), Returned(), Died());
    ToDropped();
    Joined(Begun(), Died(), Dropped());
    ToFree();
    Joined(Begun(), Dropped(), Free());
    ToJudged();
    Joined(Begun(), Free(), Judged());
    ToTaken();
    Joined(Begun(), Judged(), Taken());
    ToPassed();
    Joined(Begun(), Taken(), Passed());
    ToLowered();
    Joined(Begun(), Passed(), Lowered());
  }

  /** What is left when the flag is down. */
  predicate Outlived(s: State) {
    && s.garbage && !s.word.judging && s.reaper == None && s.ext == map[]
    && s.word.refs == 1 && s.parked == multiset{1}
  }

  lemma LoweredIs()
    ensures Outlived(Lowered())
  {}

  lemma RunOf(s: State, t: State) returns (ss: seq<State>, xs: seq<Label>)
    requires Init(s) && Reaches(s, t)
    ensures Trace(ss, xs) && ss[|xs|] == t
  {
    hide Step, Init;
    ss, xs :| Leads(s, ss, xs, t);
  }

  /** The reaper is done and the flag is down, and the dead closure still refers to the frame. */
  lemma ReferenceOutlives() returns (ss: seq<State>, xs: seq<Label>)
    ensures Trace(ss, xs) && Outlived(ss[|xs|])
  {
    hide *;
    AllTheWay();
    Starts();
    LoweredIs();
    ss, xs := RunOf(Begun(), Lowered());
    TraceLength(ss, xs);
  }

  lemma TraceLength(ss: seq<State>, xs: seq<Label>)
    requires Trace(ss, xs)
    ensures |ss| == |xs| + 1
  {
    hide Step, Init;
  }
}
