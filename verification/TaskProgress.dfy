/** What tasks can do, and that groups never deadlock: some task on which a join waits can go on. */
module TaskProgress {
  import opened Options
  import opened TaskGroups

  ghost predicate Can(s: State, x: Label) {
    exists n :: Step(s, x, n)
  }

  lemma RootedAt(s: State, t: Tid)
    requires Inv(s) && t in s.tasks
    ensures Rooted(s, t)
  {}

  /** What a running task can do: begin a group; spawn, if it is in one; come to the end of a block,
   *  or leave blocks by an exception, if it is in some; and end, normally only outside all blocks. */
  lemma RunningMay(s: State, t: Tid, u: Tid, deadline: bool, m: nat, f: Option<Failure>)
    requires Inv(s) && t in s.tasks && s.tasks[t].phase.Running? && u !in s.tasks
    ensures var k := s.tasks[t];
      && Can(s, Begin(t, s.next, deadline))
      && (Can(s, Spawn(t, u)) <==> k.home.Some? || k.open != [])
      && (Can(s, Escape(t, m)) <==> 0 < m <= |k.blocks|)
      && (Can(s, BeginJoin(t)) <==> k.blocks != [])
      && (Can(s, End(t, f)) <==> k.home.Some? && (k.blocks == [] || f.Some?))
  {
    hide Counted, Apart, AllOpen, Histories, AllBegun, FreedGone;
    RootedAt(s, t);
    BeginMay(s, t, deadline);
    SpawnMay(s, t, u);
    EscapeMay(s, t, m);
    EndMay(s, t, f);
  }

  lemma BeginMay(s: State, t: Tid, deadline: bool)
    requires t in s.tasks && s.tasks[t].phase.Running? && Rooted(s, t)
    ensures Can(s, Begin(t, s.next, deadline))
    ensures Can(s, BeginJoin(t)) <==> s.tasks[t].blocks != []
  {
    var k := s.tasks[t];
    var n := SetTask(SetGroup(s, s.next, Group(Current(k), 0, false, deadline, None, [], [])),
                     t, k.(open := k.open + [s.next], blocks := k.blocks + [s.next])).(next := s.next + 1);
    assert Step(s, Begin(t, s.next, deadline), n);
    if k.blocks != [] { assert Step(s, BeginJoin(t), SetTask(s, t, k.(phase := Joining(false)))); }
  }

  lemma SpawnMay(s: State, t: Tid, u: Tid)
    requires t in s.tasks && s.tasks[t].phase.Running? && Rooted(s, t) && u !in s.tasks
    ensures Can(s, Spawn(t, u)) <==> s.tasks[t].home.Some? || s.tasks[t].open != []
  {
    var k := s.tasks[t];
    if k.home.Some? || k.open != [] {
      var g := Current(k).value;
      var n := SetTask(SetGroup(s, g, s.groups[g].(live := s.groups[g].live + 1)), u, Task(Some(g), [], [], Running));
      assert Step(s, Spawn(t, u), n);
    }
  }

  lemma EscapeMay(s: State, t: Tid, m: nat)
    requires t in s.tasks && s.tasks[t].phase.Running?
    ensures Can(s, Escape(t, m)) <==> 0 < m <= |s.tasks[t].blocks|
  {
    var k := s.tasks[t];
    if 0 < m <= |k.blocks| {
      assert Step(s, Escape(t, m), SetTask(s, t, k.(blocks := k.blocks[..|k.blocks| - m])));
    }
  }

  lemma EndMay(s: State, t: Tid, f: Option<Failure>)
    requires t in s.tasks && s.tasks[t].phase.Running? && Rooted(s, t)
    ensures Can(s, End(t, f)) <==> s.tasks[t].home.Some? && (s.tasks[t].blocks == [] || f.Some?)
  {
    var k := s.tasks[t];
    if k.home.Some? && (k.blocks == [] || f.Some?) {
      var g := k.home.value;
      var n := SetTask(if f.Some? then SetGroup(s, g, Record(s.groups[g], f.value)) else s, t,
                       k.(blocks := [], phase := Ended));
      assert Step(s, End(t, f), n);
    }
  }

  /** A task that has ended can give up its place. */
  lemma EndedMay(s: State, t: Tid)
    requires Inv(s) && t in s.tasks && s.tasks[t].phase.Ended?
    ensures Can(s, Exit(t))
  {
    hide Apart, AllOpen, Histories, AllBegun, FreedGone;
    RootedAt(s, t);
    var g := s.tasks[t].home.value;
    assert t in Members(s, g);
    var n := SetTask(SetGroup(s, g, s.groups[g].(live := s.groups[g].live - 1)), t, s.tasks[t].(phase := Done));
    assert Step(s, Exit(t), n);
  }

  /** A join ends exactly when no task of its group is left, with one outcome; while some are left it
   *  times out exactly when the deadline has passed and nothing has cancelled the group. */
  lemma JoiningMay(s: State, t: Tid)
    requires Inv(s) && t in s.tasks && s.tasks[t].phase.Joining?
    ensures var k := s.tasks[t];
      && k.open != [] && Last(k.open) in s.groups
      && var g := s.groups[Last(k.open)];
      && ((exists out :: Can(s, Join(t, out))) <==> Members(s, Last(k.open)) == {})
      && (Can(s, TimeOut(t)) <==> Members(s, Last(k.open)) != {} && g.deadline && !g.cancelled)
  {
    hide Apart, AllOpen, Histories, AllBegun, FreedGone;
    RootedAt(s, t);
    var k := s.tasks[t];
    var g := Last(k.open);
    assert s.groups[g].live == 0 <==> Members(s, g) == {};
    if Members(s, g) == {} {
      var out := Deliver(s.groups[g], k.phase.timedOut);
      var n := SetTask(s.(groups := s.groups - {g}), t,
                       k.(open := k.open[..|k.open| - 1], blocks := k.blocks[..|k.blocks| - 1], phase := Running));
      assert Step(s, Join(t, out), n);
    } else if s.groups[g].deadline && !s.groups[g].cancelled {
      var n := SetTask(SetGroup(s, g, s.groups[g].(cancelled := true)), t, k.(phase := Joining(true)));
      assert Step(s, TimeOut(t), n);
    }
  }

  /* -------------------------------------------------------- no deadlock */

  /** A task that waits for nobody: it runs, or has ended, or joins a group with no task left. */
  predicate Free(s: State, u: Tid) {
    u in s.tasks
    && (s.tasks[u].phase.Running? || s.tasks[u].phase.Ended?
        || (s.tasks[u].phase.Joining? && s.tasks[u].open != [] && Members(s, Last(s.tasks[u].open)) == {}))
  }

  /** Groups a task has open are newer than the one it was spawned into. */
  lemma {:induction false} OpenNewer(s: State, t: Tid, i: nat)
    requires Inv(s) && t in s.tasks && i < |s.tasks[t].open| && s.tasks[t].home.Some?
    ensures s.tasks[t].home.value < s.tasks[t].open[i] < s.next
  {
    hide Counted, Apart, AllOpen, AllBegun, FreedGone;
    RootedAt(s, t);
    var g := s.tasks[t].open[i];
    assert s.groups[g].parent == Below(s.tasks[t], i);
    assert Older(s.groups[g].parent, g);
    if i > 0 { OpenNewer(s, t, i - 1); }
  }

  /** Whatever a join waits for, down the groups there is a task that waits for nobody. */
  lemma {:induction false} SomeoneFree(s: State, t: Tid) returns (u: Tid)
    requires Inv(s) && t in s.tasks && !s.tasks[t].phase.Done?
    ensures Free(s, u)
    decreases s.next - (if s.tasks[t].home.Some? then s.tasks[t].home.value else -1)
  {
    u := t;
    if s.tasks[t].phase.Joining? {
      JoiningMay(s, t);
      var g := Last(s.tasks[t].open);
      if Members(s, g) != {} {
        var v :| v in Members(s, g);
        NewerHome(s, t);
        u := SomeoneFree(s, v);
      }
    }
  }

  lemma NewerHome(s: State, t: Tid)
    requires Inv(s) && t in s.tasks && s.tasks[t].open != []
    ensures Last(s.tasks[t].open) < s.next
    ensures s.tasks[t].home.Some? ==> s.tasks[t].home.value < Last(s.tasks[t].open)
  {
    hide Counted, Apart, AllOpen, FreedGone;
    assert Begun(s, s.tasks[t]);
    if s.tasks[t].home.Some? { OpenNewer(s, t, |s.tasks[t].open| - 1); }
  }

  /** In every state of every run in which a task is not done, some task can go on. */
  lemma NoDeadlock(ss: seq<State>, xs: seq<Label>, i: nat, t: Tid) returns (x: Label)
    requires Trace(ss, xs) && i < |ss| && t in ss[i].tasks && !ss[i].tasks[t].phase.Done?
    ensures Can(ss[i], x) && Free(ss[i], x.t)
    ensures ss[i].tasks[x.t].phase.Ended? ==> x.Exit?
    ensures ss[i].tasks[x.t].phase.Joining? ==> x.Join?
  {
    hide Trace, Inv, Step, Can, Free;
    RunKeeps(ss, xs, i);
    var u := SomeoneFree(ss[i], t);
    x := FreeMay(ss[i], u);
  }

  lemma FreeMay(s: State, u: Tid) returns (x: Label)
    requires Inv(s) && Free(s, u)
    ensures x.t == u && u in s.tasks && Can(s, x)
    ensures s.tasks[u].phase.Ended? ==> x.Exit?
    ensures s.tasks[u].phase.Joining? ==> x.Join?
  {
    hide Inv, Can;
    if s.tasks[u].phase.Ended? {
      EndedMay(s, u);
      x := Exit(u);
    } else if s.tasks[u].phase.Running? {
      RootedAt(s, u);
      BeginMay(s, u, false);
      x := Begin(u, s.next, false);
    } else {
      JoiningMay(s, u);
      var out :| Can(s, Join(u, out));
      x := Join(u, out);
    }
  }

  /* -------------------------------------------------------- what cancels a group */

  /** The step records a failure of a task of group g, or finds its deadline passed. */
  ghost predicate Cancels(s: State, x: Label, g: Gid) {
    x.t in s.tasks
    && ((x.End? && x.f.Some? && s.tasks[x.t].home == Some(g))
        || (x.TimeOut? && s.tasks[x.t].open != [] && Last(s.tasks[x.t].open) == g))
  }

  ghost predicate CancelledBefore(ss: seq<State>, xs: seq<Label>, i: nat, g: Gid)
    requires i <= |xs| && i < |ss|
  {
    exists k: nat :: k < i && Cancels(ss[k], xs[k], g)
  }

  lemma CancelStep(s: State, x: Label, n: State, g: Gid)
    requires Inv(s) && Step(s, x, n) && g in n.groups
    ensures g in s.groups ==> (n.groups[g].cancelled <==> s.groups[g].cancelled || Cancels(s, x, g))
    ensures g !in s.groups ==> !n.groups[g].cancelled && g == s.next && n.next == g + 1
  {
    hide Counted, AllRooted, Apart, AllOpen, AllBegun, FreedGone;
  }

  lemma OnlyKnown(s: State, x: Label, n: State, g: Gid)
    requires Inv(s) && Step(s, x, n) && g >= s.next
    ensures !Cancels(s, x, g)
  {
    hide Counted, Apart, AllOpen, Histories, FreedGone;
    if x.t in s.tasks { assert Begun(s, s.tasks[x.t]); }
  }

  lemma NotBefore(ss: seq<State>, xs: seq<Label>, i: nat, g: Gid, k: nat)
    requires k < i <= |xs| && i < |ss| && !CancelledBefore(ss, xs, i, g)
    ensures !Cancels(ss[k], xs[k], g)
  {}

  lemma NorThen(ss: seq<State>, xs: seq<Label>, i: nat, g: Gid)
    requires 0 < i <= |xs| && i < |ss| && !CancelledBefore(ss, xs, i - 1, g) && !Cancels(ss[i - 1], xs[i - 1], g)
    ensures !CancelledBefore(ss, xs, i, g)
  {
    forall k: nat | k < i ensures !Cancels(ss[k], xs[k], g) {
      if k < i - 1 { NotBefore(ss, xs, i - 1, g, k); }
    }
  }

  lemma {:induction false} NotYetCancelled(ss: seq<State>, xs: seq<Label>, i: nat, g: Gid)
    requires Trace(ss, xs) && i < |ss| && g >= ss[i].next
    ensures !CancelledBefore(ss, xs, i, g)
    decreases i
  {
    if i > 0 {
      NextGrows(ss[i - 1], xs[i - 1], ss[i]);
      NotYetCancelled(ss, xs, i - 1, g);
      RunKeeps(ss, xs, i - 1);
      OnlyKnown(ss[i - 1], xs[i - 1], ss[i], g);
      NorThen(ss, xs, i, g);
    }
  }

  lemma NextGrows(s: State, x: Label, n: State)
    requires Step(s, x, n)
    ensures s.next <= n.next
  {}

  /** A group is cancelled exactly when one of its tasks has failed or its join has found the deadline
   *  passed. */
  lemma {:induction false} CancelledExactly(ss: seq<State>, xs: seq<Label>, i: nat, g: Gid)
    requires Trace(ss, xs) && i < |ss| && g in ss[i].groups
    ensures ss[i].groups[g].cancelled <==> CancelledBefore(ss, xs, i, g)
    decreases i
  {
    if i > 0 {
      RunKeeps(ss, xs, i - 1);
      CancelStep(ss[i - 1], xs[i - 1], ss[i], g);
      if g in ss[i - 1].groups {
        CancelledExactly(ss, xs, i - 1, g);
        hide Trace, Inv, Step, Cancels;
        if CancelledBefore(ss, xs, i - 1, g) {
          var k: nat :| k < i - 1 && Cancels(ss[k], xs[k], g);
          assert CancelledBefore(ss, xs, i, g);
        } else if !Cancels(ss[i - 1], xs[i - 1], g) {
          NorThen(ss, xs, i, g);
        }
      } else {
        NotYetCancelled(ss, xs, i - 1, g);
        OnlyKnown(ss[i - 1], xs[i - 1], ss[i], g);
        NorThen(ss, xs, i, g);
      }
    }
  }
}
