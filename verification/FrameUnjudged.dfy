/** A run that leaves a finished frame lying: a release reads `done` before the function returns, and
 *  gives up its reference after the judgement that the return makes. */
module FrameUnjudged {
  import opened Options
  import opened FrameProtocol
  import opened FrameTheorem
  import opened FrameVerdict
  import opened FrameParked

  /* -------------------------------------------------------- the states on the way */

  /** The function has put closure 0 into its register and handed it to somebody too. */
  function Handed(): State {
    Begun().(word := Word(2, 0, 0, false), slots := [Slot(Some(0), 0)], ext := map[0 := 1])
  }

  /** Who has it is about to let it go, the function still running. */
  function Early(): State { Handed().(pcs := Two(Owner, RelUnheld(0))) }

  /** The function has returned. */
  function Ended(): State {
    Early().(word := Word(1, 0, 1, false), done := true, pcs := Two(Enter(0), RelUnheld(0)))
  }

  /** It judges the frame. */
  function Over(): State { Ended().(pcs := Two(Swap(0, Word(1, 0, 1, false)), RelUnheld(0))) }

  /** It has read the register: closure 0 has another holder yet. */
  function Looked(): State {
    Over().(word := Word(1, 0, 1, true), begun := 1,
            pcs := Two(Verdict(0, Word(1, 0, 1, false), {0}, {}), RelUnheld(0)))
  }

  /** It has acquitted. */
  function Acquitted(): State {
    Looked().(word := Word(1, 0, 0, false), stood := 1, pcs := Two(Idle, RelUnheld(0)))
  }

  /** The reference is given up, and nobody judges. */
  function Left(): State { Acquitted().(ext := map[0 := 0], pcs := Two(Idle, Idle)) }

  /* -------------------------------------------------------- the steps */

  lemma ToHanded()
    ensures Reaches(Begun(), Handed())
  {
    var s := Begun();
    var s1 := s.(word := Word(2, 0, 0, false), ext := map[0 := 1]);
    var s2 := s1.(ext := map[0 := 2]);
    hide N, Count;
    assert map[0 := 1][0 := 2] == map[0 := 2] && map[0 := 2][0 := 1] == map[0 := 1];
    NobodyPlays(s1.pcs, Letting(0));
    assert MakesClosure(s, MAKER, 0, s1);
    assert Shares(s1, 0, s2);
    assert Puts(s2, MAKER, 0, 0, Handed());
    Stays(s);
    Onward(s, s, By(MAKER, 0), s1);
    Onward(s, s1, By(MAKER, 0), s2);
    Onward(s, s2, By(MAKER, 0), Handed());
  }

  lemma ToEarly()
    ensures Reaches(Handed(), Early())
  {
    hide N;
    HolderGoes(Owner, Idle, RelUnheld(0));
    NobodyPlays(Handed().pcs, Letting(0));
    assert BeginsRelease(Handed(), HOLDER, 0, Early());
    Stays(Handed());
    Onward(Handed(), Handed(), By(HOLDER, 0), Early());
  }

  lemma ToEnded()
    ensures Reaches(Early(), Ended())
  {
    var s, y := Early(), RelUnheld(0);
    var s1 := s.(done := true, pcs := Two(Clearing, y));
    var s2 := s1.(pcs := Two(Dropping, y));
    MakerGoes(Owner, y, Clearing);
    MakerGoes(Clearing, y, Dropping);
    MakerGoes(Dropping, y, Enter(0));
    assert Finishes(s, MAKER, s1);
    assert Leaves(s1, MAKER, s2);
    assert DropsToHold(s2, MAKER, Ended());
    Stays(s);
    Onward(s, s, By(MAKER, 0), s1);
    Onward(s, s1, By(MAKER, 0), s2);
    Onward(s, s2, By(MAKER, 0), Ended());
  }

  lemma ToOver()
    ensures Reaches(Ended(), Over())
  {
    var s3, y := Ended(), RelUnheld(0);
    var s4 := s3.(pcs := Two(ReaperTest(0), y));
    var s5 := s4.(pcs := Two(Top(0), y));
    var s6 := s5.(pcs := Two(Look(0), y));
    MakerGoes(Enter(0), y, ReaperTest(0));
    MakerGoes(ReaperTest(0), y, Top(0));
    MakerGoes(Top(0), y, Look(0));
    MakerGoes(Look(0), y, Swap(0, Word(1, 0, 1, false)));
    assert TestsDone(s3, MAKER, s4);
    assert TestsReaper(s4, MAKER, s5);
    assert TestsActs(s5, MAKER, s6);
    assert Looks(s6, MAKER, Over());
    Stays(s3);
    Onward(s3, s3, By(MAKER, 0), s4);
    Onward(s3, s4, By(MAKER, 0), s5);
    Onward(s3, s5, By(MAKER, 0), s6);
    Onward(s3, s6, By(MAKER, 0), Over());
  }

  lemma ToLooked()
    ensures Reaches(Over(), Looked())
  {
    var s, y, c0 := Over(), RelUnheld(0), Word(1, 0, 1, false);
    var s1 := s.(word := Word(1, 0, 1, true), pcs := Two(Clear(0, c0, {0}), y));
    var s2 := s1.(begun := 1, pcs := Two(Read(0, c0, {0}, 0, {}), y));
    var s3 := s2.(pcs := Two(Read(0, c0, {0}, 1, {}), y));
    MakerGoes(Swap(0, c0), y, Clear(0, c0, {0}));
    MakerGoes(Clear(0, c0, {0}), y, Read(0, c0, {0}, 0, {}));
    MakerGoes(Read(0, c0, {0}, 0, {}), y, Read(0, c0, {0}, 1, {}));
    MakerGoes(Read(0, c0, {0}, 1, {}), y, Verdict(0, c0, {0}, {}));
    assert s.ext.Keys == {0};
    assert Raises(s, MAKER, s1);
    assert BeginsReading(s1, MAKER, s2);
    assert ReadsSlot(s2, MAKER, false, s3);
    assert EndsReading(s3, MAKER, Looked());
    Stays(s);
    Onward(s, s, By(MAKER, 0), s1);
    Onward(s, s1, By(MAKER, 0), s2);
    Onward(s, s2, By(MAKER, 0), s3);
    Onward(s, s3, By(MAKER, 0), Looked());
  }

  lemma ToAcquitted()
    ensures Reaches(Looked(), Acquitted())
  {
    var s, y, c0 := Looked(), RelUnheld(0), Word(1, 0, 1, false);
    var s1 := s.(word := c0, stood := 1, pcs := Two(Exchange(0), y));
    var s2 := s1.(pcs := Two(Unholding(false), y));
    MakerGoes(Verdict(0, c0, {0}, {}), y, Exchange(0));
    MakerGoes(Exchange(0), y, Unholding(false));
    MakerGoes(Unholding(false), y, Idle);
    assert Acquits(s, MAKER, s1);
    assert TakesPending(s1, MAKER, s2);
    assert Unholds(s2, MAKER, Acquitted());
    Stays(s);
    Onward(s, s, By(MAKER, 0), s1);
    Onward(s, s1, By(MAKER, 0), s2);
    Onward(s, s2, By(MAKER, 0), Acquitted());
  }

  lemma ToLeft()
    ensures Reaches(Acquitted(), Left())
  {
    HolderGoes(Idle, RelUnheld(0), Idle);
    assert Count([Slot(Some(0), 0)], 0) == 1;
    assert map[0 := 1][0 := 0] == map[0 := 0];
    assert DropsClosure(Acquitted(), HOLDER, Left());
    Stays(Acquitted());
    Onward(Acquitted(), Acquitted(), By(HOLDER, 0), Left());
  }

  lemma AllTheWayLeft()
    ensures Reaches(Begun(), Left())
  {
    hide *;
    ToHanded();
    ToEarly();
    Joined(Begun(), Handed(), Early());
    ToEnded();
    Joined(Begun(), Early(), Ended());
    ToOver();
    Joined(Begun(), Ended(), Over());
    ToLooked();
    Joined(Begun(), Over(), Looked());
    ToAcquitted();
    Joined(Begun(), Looked(), Acquitted());
    ToLeft();
    Joined(Begun(), Acquitted(), Left());
  }

  /** Everybody is at rest, nothing is deferred, and the one reference is the frame's own. */
  ghost predicate Lost(s: State) {
    s.done && !s.garbage && s.freed == 0 && s.deferred == 0 && AllAtRest(s) && OnlyItsOwn(s)
  }

  lemma LeftIs()
    ensures Lost(Left())
  {
    var s := Left();
    assert HeldIn(s.slots, 0, 0);
    assert HeldOnce(s, 0);
  }

  /** The frame and its closure are never collected: nobody is left to judge them. */
  lemma NeverJudged() returns (ss: seq<State>, xs: seq<Label>)
    ensures Trace(ss, xs) && Lost(ss[|xs|])
  {
    hide *;
    AllTheWayLeft();
    Starts();
    LeftIs();
    ss, xs := RunOf(Begun(), Left());
    TraceLength(ss, xs);
  }
}
