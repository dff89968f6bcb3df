/** When a judgement must find garbage, in terms of slots, closures and references; and that nobody is
 *  ever stuck on the way to one. */
module FrameVerdict {
  import opened Options
  import opened FrameProtocol
  import opened FrameSafety
  import opened FrameSteps
  import opened FrameRuns
  import opened FrameTheorem

  /* -------------------------------------------------------- one verdict */

  /** There are references, and each is that of a closure which one place of the frame holds, reached
   *  by nothing else. */
  ghost predicate OnlyItsOwn(s: State) {
    s.word.refs > 0 && s.word.refs == |s.ext| && forall c | c in s.ext :: HeldOnce(s, c)
  }

  /** Exactly one slot holds c, nothing but the frame reaches that slot, and nobody outside has c. */
  ghost predicate HeldOnce(s: State, c: Closure) {
    && c in s.ext && s.ext[c] == 0
    && exists i: nat :: HeldIn(s.slots, i, c) && s.slots[i].extra == 0
  }

  predicate HeldIn(slots: seq<Slot>, i: nat, c: Closure) {
    i < |slots| && slots[i].clo == Some(c) && forall j | 0 <= j < |slots| && slots[j].clo == Some(c) :: j == i
  }

  lemma {:induction false} CountsOne(slots: seq<Slot>, i: nat, c: Closure)
    requires HeldIn(slots, i, c)
    ensures Count(slots, c) == 1
  {
    if i == 0 {
      forall j | 0 <= j < |slots[1..]| ensures slots[1..][j].clo != Some(c) { assert slots[1..][j] == slots[j + 1]; }
      CountsNone(slots[1..], c);
    } else {
      assert slots[0].clo != Some(c);
      assert HeldIn(slots[1..], i - 1, c) by {
        forall j | 0 <= j < |slots[1..]| && slots[1..][j].clo == Some(c) ensures j == i - 1 {
          assert slots[1..][j] == slots[j + 1];
        }
      }
      CountsOne(slots[1..], i - 1, c);
    }
  }

  lemma {:induction false} CountsNone(slots: seq<Slot>, c: Closure)
    requires forall j | 0 <= j < |slots| :: slots[j].clo != Some(c)
    ensures Count(slots, c) == 0
  {
    if slots != [] { CountsNone(slots[1..], c); }
  }

  lemma HeldOnceIsOwned(s: State, c: Closure)
    ensures HeldOnce(s, c) <==> Owned(s.slots, s.ext, c)
  {
    if HeldOnce(s, c) {
      var i: nat :| HeldIn(s.slots, i, c) && s.slots[i].extra == 0;
      CountsOne(s.slots, i, c);
    }
    if Owned(s.slots, s.ext, c) {
      var i := SlotOf(s.slots, c);
      CountPositive(s.slots, i, c);
      assert HeldIn(s.slots, i, c);
    }
  }

  lemma {:induction false} SlotOf(slots: seq<Slot>, c: Closure) returns (i: nat)
    requires Count(slots, c) > 0
    ensures i < |slots| && slots[i].clo == Some(c)
  {
    if slots[0].clo == Some(c) {
      i := 0;
    } else {
      i := SlotOf(slots[1..], c);
      i := i + 1;
    }
  }

  /** Every place that the judge could have counted it has counted. */
  ghost predicate Thorough(s: State, known: set<Closure>) {
    forall i | 0 <= i < |s.slots| && s.slots[i].clo.Some? && s.slots[i].extra == 0
               && HeldOnce(s, s.slots[i].clo.value) :: s.slots[i].clo.value in known
  }

  lemma KnownAll(s: State, known: set<Closure>)
    requires OnlyItsOwn(s) && Thorough(s, known)
    ensures s.ext.Keys <= known
  {
    forall c | c in s.ext ensures c in known {
      assert HeldOnce(s, c);
      var i: nat :| HeldIn(s.slots, i, c) && s.slots[i].extra == 0;
    }
  }

  /** A judge that has passed over nothing finds garbage if, and only if, every reference is of the
   *  frame's own: where the word is as the judge set it, its step from the verdict condemns then, and
   *  otherwise acquits. */
  lemma VerdictExact(ss: seq<State>, xs: seq<Label>, i: nat, a: Agent)
    requires Trace(ss, xs) && i < |xs| && xs[i].a == a && a in ss[i].pcs && ss[i].pcs[a].Verdict?
    requires ss[i].word == ss[i].pcs[a].c0.(judging := true) && Decides(ss[i], ss[i + 1], a)
    ensures a in ss[i + 1].pcs && (ss[i + 1].pcs[a].ReapStart? || ss[i + 1].pcs[a].Exchange?)
    ensures ss[i + 1].pcs[a].ReapStart? ==> ss[i + 1].garbage && OnlyItsOwn(ss[i])
    ensures Thorough(ss[i], ss[i].pcs[a].known) && OnlyItsOwn(ss[i]) ==> ss[i + 1].pcs[a].ReapStart?
  {
    RunKeeps(ss, xs, i);
    hide Trace, Inv, Step;
    VerdictStep(ss[i], a, ss[i + 1]);
  }

  /** So an acquittal means that such a place was passed over, or that there is no reference, or one that
   *  is not such a closure's. */
  lemma AcquitsRightly(ss: seq<State>, xs: seq<Label>, i: nat, a: Agent)
    requires Trace(ss, xs) && i < |xs| && xs[i].a == a && Acquits(ss[i], a, ss[i + 1])
    ensures !Thorough(ss[i], ss[i].pcs[a].known) || ss[i].word.refs == 0 || ss[i].word.refs != |ss[i].ext|
            || exists c :: c in ss[i].ext && !HeldOnce(ss[i], c)
  {
    if Thorough(ss[i], ss[i].pcs[a].known) && OnlyItsOwn(ss[i]) { VerdictExact(ss, xs, i, a); }
  }

  lemma VerdictStep(s: State, a: Agent, t: State)
    requires Inv(s) && a in s.pcs && s.pcs[a].Verdict? && s.word == s.pcs[a].c0.(judging := true) && Decides(s, t, a)
    ensures a in t.pcs && (t.pcs[a].ReapStart? || t.pcs[a].Exchange?)
    ensures t.pcs[a].ReapStart? ==> t.garbage && OnlyItsOwn(s)
    ensures Thorough(s, s.pcs[a].known) && OnlyItsOwn(s) ==> t.pcs[a].ReapStart?
  {
    if Condemns(s, a, t) {
      VerdictIsSound(s, a, t);
      assert |s.ext| > 0 by { AliveCount(s, a); }
      hide Inv;
      forall c | c in s.ext ensures HeldOnce(s, c) { HeldOnceIsOwned(s, c); }
    } else if Thorough(s, s.pcs[a].known) && OnlyItsOwn(s) {
      MustFind(s, a);
    }
  }

  lemma AliveCount(s: State, a: Agent)
    requires Inv(s) && a in s.pcs && s.pcs[a].Verdict? && s.word == s.pcs[a].c0.(judging := true)
    requires FindsGarbage(s.pcs[a])
    ensures |s.ext| > 0
  {
    hide N, Owned, Honest, Excluded, Doomed, Dated, Agents;
    Knows(s, a);
    AliveSet(s, a);
    assert |s.ext.Keys| == |s.ext|;
  }

  lemma MustFind(s: State, a: Agent)
    requires Inv(s) && a in s.pcs && s.pcs[a].Verdict? && s.word == s.pcs[a].c0.(judging := true)
    requires Thorough(s, s.pcs[a].known) && OnlyItsOwn(s)
    ensures FindsGarbage(s.pcs[a])
  {
    hide N, Owned, Honest, Excluded, Doomed, Dated, Agents, Tallied;
    Knows(s, a);
    KnownAll(s, s.pcs[a].known);
    hide OnlyItsOwn, Thorough, Known, AllOwned;
    KnownSeen(s, a);
    var p := s.pcs[a];
    Subset(s.ext.Keys, p.known);
    Subset(p.known, p.seen);
    assert |s.ext.Keys| == |s.ext|;
    Refers(s);
  }

  lemma Refers(s: State)
    requires OnlyItsOwn(s)
    ensures s.word.refs > 0 && s.word.refs == |s.ext|
  {}

  lemma KnownSeen(s: State, a: Agent)
    requires a in s.pcs && s.pcs[a].Verdict? && PcOk(s, a, s.pcs[a])
    ensures s.pcs[a].known <= s.pcs[a].seen && |s.pcs[a].seen| <= s.pcs[a].c0.refs
  {}
}
