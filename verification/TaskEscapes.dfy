/** What follows from an exception leaving a group's block (runtime/src/task.c): when a run keeps
 *  clear of it, when a block joins its own group, and two runs that do not. */
module TaskEscapes {
  import opened Options
  import opened TaskGroups
  import opened TaskWalks

  /* -------------------------------------------------------- runs that keep clear */

  /** A task that ends leaves open only groups with no unfinished tasks. */
  predicate Tidy(s: State, x: Label) {
    x.End? && x.t in s.tasks ==> forall i | 0 <= i < |s.tasks[x.t].open| :: Idle(s, s.tasks[x.t].open[i])
  }

  predicate Idle(s: State, g: Gid) {
    g in s.groups ==> s.groups[g].live == 0
  }

  predicate Over(k: Task) {
    k.phase.Ended? || k.phase.Done?
  }

  ghost predicate AllTidy(s: State) {
    forall t, i | t in s.tasks && Over(s.tasks[t]) && 0 <= i < |s.tasks[t].open| :: Idle(s, s.tasks[t].open[i])
  }

  /** No task is spawned into a group that a task over has left. */
  lemma NotCurrent(s: State, t: Tid, u: Tid, i: nat)
    requires AllTidy(s) && Apart(s) && Counted(s) && Active(s, t) && Current(s.tasks[t]).Some?
    requires u in s.tasks && Over(s.tasks[u]) && i < |s.tasks[u].open| && s.tasks[u].open[i] in s.groups
    ensures s.tasks[u].open[i] != Current(s.tasks[t]).value
  {
    hide Counted, AllTidy;
    var g := s.tasks[u].open[i];
    if s.tasks[t].open == [] {
      TidyAt(s, u, i);
      MemberIdle(s, t, g);
    } else {
      assert s.tasks[t].open[|s.tasks[t].open| - 1] == Current(s.tasks[t]).value;
    }
  }

  lemma MemberIdle(s: State, w: Tid, g: Gid)
    requires Counted(s) && g in s.groups && Unfinished(s, w) && s.groups[g].live == 0
    ensures s.tasks[w].home != Some(g)
  {
    assert w !in Members(s, g);
  }

  lemma TidyAt(s: State, u: Tid, i: nat)
    requires AllTidy(s) && u in s.tasks && Over(s.tasks[u]) && i < |s.tasks[u].open|
    ensures Idle(s, s.tasks[u].open[i])
  {}

  /** A step makes no group busy but the current one of the task that spawns. */
  lemma BusyStep(s: State, x: Label, n: State, g: Gid)
    requires Step(s, x, n) && g in n.groups && n.groups[g].live > 0
    ensures (g in s.groups && s.groups[g].live > 0) || (x.Spawn? && Active(s, x.t) && Current(s.tasks[x.t]) == Some(g))
  {}

  lemma OverStep(s: State, x: Label, n: State, t: Tid)
    requires Step(s, x, n) && t in n.tasks && Over(n.tasks[t])
    ensures t in s.tasks && n.tasks[t].open == s.tasks[t].open
    ensures Over(s.tasks[t]) || (x.End? && x.t == t)
  {}

  lemma OpenThere(s: State, t: Tid, i: nat)
    requires AllRooted(s) && t in s.tasks && i < |s.tasks[t].open|
    ensures s.tasks[t].open[i] in s.groups
  {
    assert Rooted(s, t);
  }

  lemma TidyStep(s: State, x: Label, n: State)
    requires Inv(s) && AllTidy(s) && Tidy(s, x) && Step(s, x, n)
    ensures AllTidy(n)
  {
    hide *;
    Parts(s);
    forall t, i | t in n.tasks && Over(n.tasks[t]) && 0 <= i < |n.tasks[t].open| ensures Idle(n, n.tasks[t].open[i]) {
      OverStep(s, x, n, t);
      OpenThere(s, t, i);
      IdleStep(s, x, n, t, i);
    }
    AllTidyIs(n);
  }

  lemma AllTidyIs(s: State)
    requires forall t, i | t in s.tasks && Over(s.tasks[t]) && 0 <= i < |s.tasks[t].open| :: Idle(s, s.tasks[t].open[i])
    ensures AllTidy(s)
  {}

  lemma IdleStep(s: State, x: Label, n: State, t: Tid, i: nat)
    requires Inv(s) && AllTidy(s) && Tidy(s, x) && Step(s, x, n) && t in s.tasks
    requires (Over(s.tasks[t]) || (x.End? && x.t == t))
    requires i < |s.tasks[t].open| && s.tasks[t].open[i] in s.groups
    ensures Idle(n, s.tasks[t].open[i])
  {
    hide Inv, AllTidy, Step, Active, Current, Counted, Apart;
    Parts(s);
    var g := s.tasks[t].open[i];
    assert Idle(s, g) by { if Over(s.tasks[t]) { TidyAt(s, t, i); } }
    if g in n.groups && n.groups[g].live > 0 {
      BusyStep(s, x, n, g);
      SpawnNotEnd(x);
      NotCurrent(s, x.t, t, i);
    }
  }

  lemma SpawnNotEnd(x: Label)
    ensures !(x.Spawn? && x.End?)
  {}

  /** In such a state nothing is above a group with unfinished tasks but groups that have them. */
  lemma {:induction false} TidyClean(s: State, h: Gid, g: Gid, k: nat)
    requires Inv(s) && AllTidy(s) && h in s.groups && s.groups[h].live == 0
    requires g in s.groups && g != h && s.groups[g].live > 0
    requires forall t | t in s.tasks && h in s.tasks[t].open :: Last(s.tasks[t].open) == h
    ensures Ancestor(s, Some(g), k) != Some(h)
    decreases k
  {
    hide *;
    Parts(s);
    var u, i := Owner(s, g);
    BusyOwner(s, g, u, i);
    LiveHome(s, u);
    ThroughOpen(s, u, i, k);
    if k <= i {
      NotBelowTop(s, u, i - k, h, g, i);
    } else if s.tasks[u].home.Some? {
      HomeBusy(s, u, h);
      TidyClean(s, h, s.tasks[u].home.value, k - i - 1);
    } else {
      NoAncestor(s, k - i - 1);
    }
  }

  lemma NoAncestor(s: State, k: nat)
    ensures Ancestor(s, None, k) == None
  {}

  lemma Owner(s: State, g: Gid) returns (u: Tid, i: nat)
    requires AllOpen(s) && g in s.groups
    ensures u in s.tasks && i < |s.tasks[u].open| && s.tasks[u].open[i] == g
  {
    u, i :| OpenIn(s, g, u, i);
  }

  lemma BusyOwner(s: State, g: Gid, u: Tid, i: nat)
    requires AllTidy(s) && g in s.groups && s.groups[g].live > 0
    requires u in s.tasks && i < |s.tasks[u].open| && s.tasks[u].open[i] == g
    ensures Unfinished(s, u)
  {}

  lemma NotBelowTop(s: State, u: Tid, j: nat, h: Gid, g: Gid, i: nat)
    requires Apart(s) && u in s.tasks && j <= i < |s.tasks[u].open| && s.tasks[u].open[i] == g && g != h
    requires forall t | t in s.tasks && h in s.tasks[t].open :: Last(s.tasks[t].open) == h
    ensures s.tasks[u].open[j] != h
  {
    var o := s.tasks[u].open;
    assert o[j] in o;
    if j < |o| - 1 { assert o[j] != o[|o| - 1]; }
  }

  lemma HomeBusy(s: State, u: Tid, h: Gid)
    requires Counted(s) && Unfinished(s, u) && There(s, s.tasks[u].home) && s.tasks[u].home.Some?
    requires h in s.groups && s.groups[h].live == 0
    ensures var g := s.tasks[u].home.value; g in s.groups && g != h && s.groups[g].live > 0
  {
    MemberLive(s, u, s.tasks[u].home.value);
  }

  lemma TidyFrees(s: State, x: Label, n: State)
    requires Inv(s) && AllTidy(s) && Step(s, x, n) && x.Join?
    ensures Freed(s, x).Some? && !Stranded(s, Freed(s, x).value)
  {
    hide *;
    Parts(s);
    JoinFrees(s, x, n);
    var h := Freed(s, x).value;
    forall t | t in s.tasks ensures h in s.tasks[t].open ==> Last(s.tasks[t].open) == h {
      if t != x.t { OwnerOnly(s, x.t, t, |s.tasks[x.t].open| - 1); }
    }
    forall g, k: nat | g in s.groups && g != h && s.groups[g].live > 0 ensures Ancestor(s, Some(g), k) != Some(h) {
      TidyClean(s, h, g, k);
    }
    NotStranded(s, h);
  }

  lemma NotStranded(s: State, h: Gid)
    requires forall g, k: nat | g in s.groups && g != h && s.groups[g].live > 0 :: Ancestor(s, Some(g), k) != Some(h)
    ensures !Stranded(s, h)
  {}

  lemma StartTidy(s: State)
    requires Init(s)
    ensures AllTidy(s)
  {}

  lemma {:induction false} StaysTidy(ss: seq<State>, xs: seq<Label>, m: nat)
    requires Trace(ss, xs) && m < |ss| && forall i | 0 <= i < |xs| :: Tidy(ss[i], xs[i])
    ensures AllTidy(ss[m])
  {
    hide *;
    TraceStarts(ss, xs);
    if m == 0 {
      StartTidy(ss[0]);
    } else {
      StaysTidy(ss, xs, m - 1);
      RunKeeps(ss, xs, m - 1);
      TraceStep(ss, xs, m - 1);
      TidyStep(ss[m - 1], xs[m - 1], ss[m]);
    }
  }

  /** When every task that ends leaves open no group with unfinished tasks, in particular when no
   *  exception ever leaves a group's block, every walk is safe. */
  lemma TidyRunsAreSafe(ss: seq<State>, xs: seq<Label>, i: nat)
    requires Trace(ss, xs) && i < |ss| && forall j | 0 <= j < |xs| :: Tidy(ss[j], xs[j])
    ensures WalkSafe(ss[i])
  {
    hide *;
    TraceStarts(ss, xs);
    forall j | 0 <= j < |xs| ensures FreesClean(ss, xs, j) {
      CleanIs(ss, xs, j);
      if xs[j].Join? {
        RunKeeps(ss, xs, j);
        StaysTidy(ss, xs, j);
        TraceStep(ss, xs, j);
        TidyFrees(ss[j], xs[j], ss[j + 1]);
      }
    }
    WalksAreSafe(ss, xs);
  }

  /* -------------------------------------------------------- which group a block joins */

  /** How many blocks the task has been thrown out of, and caught it, in steps i to j. */
  function Escaped(xs: seq<Label>, t: Tid, i: nat, j: nat): nat
    requires i <= j <= |xs|
  {
    if i == j then 0 else Escaped(xs, t, i, j - 1) + if xs[j - 1].Escape? && xs[j - 1].t == t then xs[j - 1].m else 0
  }

  /** Task t is still in the block of g, the p-th; g is the q-th it has open; and above g it has
   *  lost that many more groups than blocks. */
  predicate InBlock(s: State, t: Tid, g: Gid, p: nat, q: nat, lost: nat) {
    t in s.tasks
    && (p < |s.tasks[t].blocks| && s.tasks[t].blocks[p] == g ==>
          q < |s.tasks[t].open| && s.tasks[t].open[q] == g && |s.tasks[t].open| - q == |s.tasks[t].blocks| - p + lost)
  }

  lemma BlockStep(s: State, x: Label, n: State, t: Tid, g: Gid, p: nat, q: nat, lost: nat)
    requires Step(s, x, n) && InBlock(s, t, g, p, q, lost) && g < s.next
    ensures InBlock(n, t, g, p, q, lost + if x.Escape? && x.t == t then x.m else 0)
  {}

  lemma NextGrows(s: State, x: Label, n: State)
    requires Step(s, x, n)
    ensures s.next <= n.next && (x.Begin? ==> x.g == s.next < n.next)
  {}

  lemma BeginStep(s: State, t: Tid, g: Gid, deadline: bool, n: State)
    requires Step(s, Begin(t, g, deadline), n)
    ensures t in s.tasks && InBlock(n, t, g, |s.tasks[t].blocks|, |s.tasks[t].open|, 0)
  {}

  lemma {:induction false} BlockKept(ss: seq<State>, xs: seq<Label>, b: nat, i: nat)
    requires Trace(ss, xs) && b < i < |ss| && xs[b].Begin?
    ensures xs[b].t in ss[b].tasks && xs[b].g < ss[i].next
    ensures InBlock(ss[i], xs[b].t, xs[b].g, |ss[b].tasks[xs[b].t].blocks|, |ss[b].tasks[xs[b].t].open|,
                    Escaped(xs, xs[b].t, b + 1, i))
    decreases i
  {
    hide *;
    TraceStarts(ss, xs);
    TraceStep(ss, xs, i - 1);
    NextGrows(ss[i - 1], xs[i - 1], ss[i]);
    EscapedStep(xs, xs[b].t, b + 1, i);
    if i == b + 1 {
      BeginStep(ss[b], xs[b].t, xs[b].g, xs[b].deadline, ss[i]);
    } else {
      BlockKept(ss, xs, b, i - 1);
      BlockStep(ss[i - 1], xs[i - 1], ss[i], xs[b].t, xs[b].g, |ss[b].tasks[xs[b].t].blocks|,
                |ss[b].tasks[xs[b].t].open|,
                Escaped(xs, xs[b].t, b + 1, i - 1));
    }
  }

  lemma EscapedStep(xs: seq<Label>, t: Tid, i: nat, j: nat)
    requires i <= j <= |xs|
    ensures i == j ==> Escaped(xs, t, i, j) == 0
    ensures i < j ==> Escaped(xs, t, i, j) == Escaped(xs, t, i, j - 1) + if xs[j - 1].Escape?
      && xs[j - 1].t == t then xs[j - 1].m else 0
  {}

  lemma EscapeSome(s: State, x: Label, n: State)
    requires Step(s, x, n) && x.Escape?
    ensures x.m > 0
  {}

  lemma {:induction false} NoneEscaped(ss: seq<State>, xs: seq<Label>, t: Tid, i: nat, j: nat)
    requires Trace(ss, xs) && i <= j <= |xs|
    ensures Escaped(xs, t, i, j) == 0 <==> forall m | i <= m < j :: !(xs[m].Escape? && xs[m].t == t)
    decreases j
  {
    hide *;
    TraceStarts(ss, xs);
    EscapedStep(xs, t, i, j);
    if i < j {
      NoneEscaped(ss, xs, t, i, j - 1);
      TraceStep(ss, xs, j - 1);
      if xs[j - 1].Escape? { EscapeSome(ss[j - 1], xs[j - 1], ss[j]); }
    }
  }

  /** The end of a block joins the group the block began exactly when, since then, no exception
   *  that left a block inside it was caught. */
  lemma JoinsItsOwn(ss: seq<State>, xs: seq<Label>, b: nat, i: nat)
    requires Trace(ss, xs) && b < i < |xs| && xs[b].Begin? && xs[i].Join? && xs[i].t == xs[b].t
    requires xs[i].t in ss[i].tasks && xs[b].t in ss[b].tasks
    requires |ss[i].tasks[xs[i].t].blocks| == |ss[b].tasks[xs[b].t].blocks| + 1
    requires Last(ss[i].tasks[xs[i].t].blocks) == xs[b].g
    ensures Freed(ss[i], xs[i]) == Some(xs[b].g) <==> forall m | b < m < i :: !(xs[m].Escape? && xs[m].t == xs[b].t)
  {
    hide *;
    TraceStarts(ss, xs);
    BlockKept(ss, xs, b, i);
    NoneEscaped(ss, xs, xs[b].t, b + 1, i);
    RunKeeps(ss, xs, i);
    Parts(ss[i]);
    TraceStep(ss, xs, i);
    JoinFrees(ss[i], xs[i], ss[i + 1]);
    TopOnly(ss[i], xs[i].t, xs[b].g, |ss[b].tasks[xs[b].t].blocks|, |ss[b].tasks[xs[b].t].open|,
            Escaped(xs, xs[b].t, b + 1, i));
  }

  lemma TopOnly(s: State, t: Tid, g: Gid, p: nat, q: nat, lost: nat)
    requires Apart(s) && InBlock(s, t, g, p, q, lost) && s.tasks[t].open != []
    requires |s.tasks[t].blocks| == p + 1 && Last(s.tasks[t].blocks) == g
    ensures Last(s.tasks[t].open) == g <==> lost == 0
  {
    var o := s.tasks[t].open;
    assert o[q] == o[|o| - 1] ==> q == |o| - 1;
  }

  /** So a block no such exception came through waits for every task spawned into its group. */
  lemma BlockWaits(ss: seq<State>, xs: seq<Label>, b: nat, i: nat, u: Tid)
    requires Trace(ss, xs) && b < i < |xs| && xs[b].Begin? && xs[i].Join? && xs[i].t == xs[b].t
    requires xs[i].t in ss[i].tasks && xs[b].t in ss[b].tasks
    requires |ss[i].tasks[xs[i].t].blocks| == |ss[b].tasks[xs[b].t].blocks| + 1
    requires Last(ss[i].tasks[xs[i].t].blocks) == xs[b].g
    requires forall m | b < m < i :: !(xs[m].Escape? && xs[m].t == xs[b].t)
    requires u in ss[i].tasks && ss[i].tasks[u].home == Some(xs[b].g)
    ensures ss[i].tasks[u].phase.Done?
  {
    hide Trace, Step;
    JoinsItsOwn(ss, xs, b, i);
    JoinWaitsForAll(ss, xs, i, xs[i].t, u);
  }

  /* -------------------------------------------------------- two runs that go wrong */

  lemma Extend(ss: seq<State>, xs: seq<Label>, x: Label, n: State)
    requires Trace(ss, xs) && Step(ss[|ss| - 1], x, n)
    ensures Trace(ss + [n], xs + [x])
  {
    hide Step, Init;
    assert (ss + [n])[0] == ss[0];
  }

  function Start(): State {
    State(map[], map[0 := Task(None, [], [], Running)], 0)
  }

  /** The main task has begun group 0 and spawned task 1 into it. */
  function Spawned(): State {
    State(map[0 := Group(None, 1, false, false, None, [], [])],
          map[0 := Task(None, [0], [0], Running), 1 := Task(Some(0), [], [], Running)], 1)
  }

  lemma RunToSpawned() returns (ss: seq<State>, xs: seq<Label>)
    ensures Trace(ss, xs) && ss[|ss| - 1] == Spawned()
  {
    var s0 := Start();
    assert Trace([s0], []);
    var s1 := State(map[0 := Group(None, 0, false, false, None, [], [])], map[0 := Task(None, [0], [0], Running)], 1);
    assert [] + [0] == [0];
    assert Begins(s0, 0, 0, false, s1);
    Extend([s0], [], Begin(0, 0, false), s1);
    var s2 := Spawned();
    assert Spawns(s1, 0, 1, s2);
    Extend([s0] + [s1], [] + [Begin(0, 0, false)], Spawn(0, 1), s2);
    ss, xs := [s0] + [s1] + [s2], [] + [Begin(0, 0, false)] + [Spawn(0, 1)];
  }

  /** Task 1 then begins group 1 and spawns task 2 into it; an exception f ends task 1 inside that
   *  block; and the main task joins group 0, which has no task left, and frees it. */
  function Abandoned(f: Failure, k: nat): State {
    var g0 := Group(None, 1, false, false, None, [], []);
    var g1 := Group(Some(0), if k == 0 then 0 else 1, false, false, None, [], []);
    var main, inner := Task(None, [0], [0], Running), Task(Some(1), [], [], Running);
    match k
    case 0 => State(map[0 := g0, 1 := g1], map[0 := main, 1 := Task(Some(0), [1], [1], Running)], 2)
    case 1 => State(map[0 := g0, 1 := g1], map[0 := main, 1 := Task(Some(0), [1], [1], Running), 2 := inner], 2)
    case 2 => State(map[0 := Record(g0, f), 1 := g1], map[0 := main, 1 := Task(Some(0), [1], [], Ended), 2 := inner], 2)
    case 3 =>
      State(map[0 := Record(g0, f).(live := 0), 1 := g1], map[0 := main, 1 := Task(Some(0), [1], [], Done), 2 := inner],
            2)
    case 4 => State(map[0 := Record(g0, f).(live := 0), 1 := g1],
                    map[0 := main.(phase := Joining(false)), 1 := Task(Some(0), [1], [], Done), 2 := inner], 2)
    case _ => State(map[1 := g1], map[0 := Task(None, [], [], Running), 1 := Task(Some(0), [1], [], Done), 2 := inner],
                    2)
  }

  lemma AbandonedBegins(f: Failure)
    ensures Begins(Spawned(), 1, 1, false, Abandoned(f, 0)) && Spawns(Abandoned(f, 0), 1, 2, Abandoned(f, 1))
  {
    assert [] + [1] == [1];
  }

  lemma AbandonedEnds(f: Failure)
    ensures Ends(Abandoned(f, 1), 1, Some(f), Abandoned(f, 2))
  {}

  lemma AbandonedExits(f: Failure)
    ensures Exits(Abandoned(f, 2), 1, Abandoned(f, 3)) && BeginsJoin(Abandoned(f, 3), 0, Abandoned(f, 4))
  {}

  lemma AbandonedJoins(f: Failure)
    ensures 0 in Abandoned(f, 4).groups
    ensures Joins(Abandoned(f, 4), 0, Deliver(Abandoned(f, 4).groups[0], false), Abandoned(f, 5))
  {
    assert [0][..0] == [];
    assert Abandoned(f, 4).groups - {0} == Abandoned(f, 5).groups;
  }

  /** A run in which a walk goes through a freed group: `group { spawn { group { spawn { ... };
   *  throw e } } }`, the innermost task still running when the outer group is joined. */
  lemma WalkIntoFreed(f: Failure) returns (ss: seq<State>, xs: seq<Label>)
    ensures Trace(ss, xs) && ss[|ss| - 1] == Abandoned(f, 5) && !WalkSafe(ss[|ss| - 1])
  {
    hide *;
    ss, xs := RunToSpawned();
    AbandonedBegins(f);
    AbandonedEnds(f);
    AbandonedExits(f);
    AbandonedJoins(f);
    var out := Deliver(Abandoned(f, 4).groups[0], false);
    StepsAre(Spawned(), Abandoned(f, 0), Abandoned(f, 1), Abandoned(f, 2), Abandoned(f, 3), Abandoned(f, 4),
             Abandoned(f, 5), f, out);
    Extend(ss, xs, Begin(1, 1, false), Abandoned(f, 0));
    ss, xs := ss + [Abandoned(f, 0)], xs + [Begin(1, 1, false)];
    Extend(ss, xs, Spawn(1, 2), Abandoned(f, 1));
    ss, xs := ss + [Abandoned(f, 1)], xs + [Spawn(1, 2)];
    Extend(ss, xs, End(1, Some(f)), Abandoned(f, 2));
    ss, xs := ss + [Abandoned(f, 2)], xs + [End(1, Some(f))];
    Extend(ss, xs, Exit(1), Abandoned(f, 3));
    ss, xs := ss + [Abandoned(f, 3)], xs + [Exit(1)];
    Extend(ss, xs, BeginJoin(0), Abandoned(f, 4));
    ss, xs := ss + [Abandoned(f, 4)], xs + [BeginJoin(0)];
    Extend(ss, xs, Join(0, out), Abandoned(f, 5));
    ss, xs := ss + [Abandoned(f, 5)], xs + [Join(0, out)];
    Dangles(f);
  }

  lemma Dangles(f: Failure)
    ensures !WalkSafe(Abandoned(f, 5))
  {
    var s := Abandoned(f, 5);
    assert Current(s.tasks[2]) == Some(1) && s.groups[1].parent == Some(0);
    assert Ancestor(s, Some(0), 0) == Some(0);
    assert Ancestor(s, Current(s.tasks[2]), 1) == Some(0);
    assert Unfinished(s, 2);
  }

  lemma StepsAre(s: State, a: State, b: State, c: State, d: State, e: State, z: State, f: Failure, out: Outcome)
    requires Begins(s, 1, 1, false, a) && Spawns(a, 1, 2, b) && Ends(b, 1, Some(f), c) && Exits(c, 1, d)
    requires BeginsJoin(d, 0, e) && Joins(e, 0, out, z)
    ensures Step(s, Begin(1, 1, false), a) && Step(a, Spawn(1, 2), b) && Step(b, End(1, Some(f)), c)
    ensures Step(c, Exit(1), d) && Step(d, BeginJoin(0), e) && Step(e, Join(0, out), z)
  {}

  /** The main task begins group 1 inside the block of group 0, an exception leaves that inner block
   *  and is caught in the outer one, and the outer block ends: it joins group 1. */
  function Slipped(k: nat): State {
    var g0, g1 := Group(None, 1, false, false, None, [], []), Group(Some(0), 0, false, false, None, [], []);
    var one := Task(Some(0), [], [], Running);
    match k
    case 0 => State(map[0 := g0, 1 := g1], map[0 := Task(None, [0, 1], [0, 1], Running), 1 := one], 2)
    case 1 => State(map[0 := g0, 1 := g1], map[0 := Task(None, [0, 1], [0], Running), 1 := one], 2)
    case 2 => State(map[0 := g0, 1 := g1], map[0 := Task(None, [0, 1], [0], Joining(false)), 1 := one], 2)
    case _ => State(map[0 := g0], map[0 := Task(None, [0], [], Running), 1 := one], 2)
  }

  lemma SlippedSteps()
    ensures Step(Spawned(), Begin(0, 1, false), Slipped(0)) && Step(Slipped(0), Escape(0, 1), Slipped(1))
    ensures Step(Slipped(1), BeginJoin(0), Slipped(2)) && Step(Slipped(2), Join(0, Nothing), Slipped(3))
  {
    SlipsOut();
    SlipsOn();
    assert BeginsJoin(Slipped(1), 0, Slipped(2));
  }

  lemma SlipsOut()
    ensures Begins(Spawned(), 0, 1, false, Slipped(0)) && Escapes(Slipped(0), 0, 1, Slipped(1))
  {
    assert [0] + [1] == [0, 1] && [0, 1][..1] == [0] && [0][..0] == [];
  }

  lemma SlipsOn()
    ensures Joins(Slipped(2), 0, Nothing, Slipped(3))
  {
    assert [0, 1][..1] == [0] && [0][..0] == [];
    assert Slipped(2).groups - {1} == Slipped(3).groups;
  }

  /** A run in which a block is over and a task spawned into its group still runs. */
  lemma BlockEndsEarly() returns (ss: seq<State>, xs: seq<Label>)
    ensures Trace(ss, xs) && ss[|ss| - 1] == Slipped(3)
    ensures Slipped(3).tasks[0].blocks == [] && Slipped(3).tasks[1] == Task(Some(0), [], [], Running)
  {
    hide Step, Init, Trace;
    ss, xs := RunToSpawned();
    SlippedSteps();
    Extend(ss, xs, Begin(0, 1, false), Slipped(0));
    ss, xs := ss + [Slipped(0)], xs + [Begin(0, 1, false)];
    Extend(ss, xs, Escape(0, 1), Slipped(1));
    ss, xs := ss + [Slipped(1)], xs + [Escape(0, 1)];
    Extend(ss, xs, BeginJoin(0), Slipped(2));
    ss, xs := ss + [Slipped(2)], xs + [BeginJoin(0)];
    Extend(ss, xs, Join(0, Nothing), Slipped(3));
    ss, xs := ss + [Slipped(3)], xs + [Join(0, Nothing)];
  }
}
