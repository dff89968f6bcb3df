/** What goes wrong with task groups when an exception leaves a group's block, and exactly when
 *  (runtime/src/task.c): the walk up the parent chain, and which group the end of a block joins. */
module TaskWalks {
  import opened Options
  import opened TaskGroups

  /** group_cancelled's walk from group g: where it is after k links.  It stops at the root, and
   *  at a group that is not there. */
  function Ancestor(s: State, g: Option<Gid>, k: nat): Option<Gid>
    decreases k
  {
    if k == 0 || g.None? then g
    else if g.value in s.groups then Ancestor(s, s.groups[g.value].parent, k - 1)
    else g
  }

  predicate There(s: State, g: Option<Gid>) {
    g.Some? ==> g.value in s.groups
  }

  predicate Unfinished(s: State, t: Tid) {
    t in s.tasks && !s.tasks[t].phase.Done?
  }

  /** No task that may still run would walk into a freed group. */
  ghost predicate WalkSafe(s: State) {
    forall t, k: nat | t in s.tasks && Unfinished(s, t) :: There(s, Ancestor(s, Current(s.tasks[t]), k))
  }

  /** Group h is above a group that still has unfinished tasks: something to test where
   *  vl_group_end is about to free h. */
  ghost predicate Stranded(s: State, h: Gid) {
    exists g, k: nat :: Strands(s, h, g, k)
  }

  predicate Strands(s: State, h: Gid, g: Gid, k: nat) {
    g in s.groups && g != h && s.groups[g].live > 0 && Ancestor(s, Some(g), k) == Some(h)
  }

  /* -------------------------------------------------------- chains */

  lemma {:induction false} Descends(s: State, g: Option<Gid>, k: nat)
    requires Histories(s)
    ensures Ancestor(s, g, k).Some? ==> g.Some? && Ancestor(s, g, k).value <= g.value
    ensures k > 0 && g.Some? && g.value in s.groups && Ancestor(s, g, k).Some? ==> Ancestor(s, g, k).value < g.value
    decreases k
  {
    if k > 0 && g.Some? && g.value in s.groups {
      assert Older(s.groups[g.value].parent, g.value);
      Descends(s, s.groups[g.value].parent, k - 1);
    }
  }

  /** The parents of s's groups are as they were in n, but for h, which may be gone. */
  predicate SameChains(s: State, n: State, h: Option<Gid>) {
    forall g | g in s.groups && Some(g) != h :: g in n.groups && n.groups[g].parent == s.groups[g].parent
  }

  lemma {:induction false} ChainKept(s: State, n: State, h: Option<Gid>, g: Option<Gid>, k: nat)
    requires SameChains(s, n, h)
    requires forall j: nat | j <= k :: There(s, Ancestor(s, g, j)) && (h.Some? ==> Ancestor(s, g, j) != h)
    ensures Ancestor(n, g, k) == Ancestor(s, g, k) && There(n, Ancestor(n, g, k))
    decreases k
  {
    assert There(s, Ancestor(s, g, 0));
    assert h.Some? ==> Ancestor(s, g, 0) != h;
    if k > 0 && g.Some? {
      var up := s.groups[g.value].parent;
      forall j: nat | j <= k - 1 ensures There(s, Ancestor(s, up, j)) && (h.Some? ==> Ancestor(s, up, j) != h) {
        assert Ancestor(s, up, j) == Ancestor(s, g, j + 1);
      }
      ChainKept(s, n, h, up, k - 1);
    }
  }

  /** A chain that reached h still does, when h is freed. */
  lemma {:induction false} ChainHits(s: State, n: State, h: Gid, g: Option<Gid>, k: nat)
    requires Histories(s) && SameChains(s, n, Some(h)) && Ancestor(s, g, k) == Some(h) && h !in n.groups
    requires forall j: nat | j <= k :: There(s, Ancestor(s, g, j))
    ensures Ancestor(n, g, k) == Some(h)
    decreases k
  {
    assert There(s, Ancestor(s, g, 0));
    if k > 0 && g.Some? {
      Descends(s, g, k);
      var up := s.groups[g.value].parent;
      forall j: nat | j <= k - 1 ensures There(s, Ancestor(s, up, j)) {
        assert Ancestor(s, up, j) == Ancestor(s, g, j + 1);
      }
      ChainHits(s, n, h, up, k - 1);
    }
  }

  /** From the i-th group a task has open, the walk passes the others and then goes on from the
   *  group it was spawned into. */
  lemma {:induction false} ThroughOpen(s: State, t: Tid, i: nat, k: nat)
    requires t in s.tasks && Rooted(s, t) && i < |s.tasks[t].open|
    ensures var a := Ancestor(s, Some(s.tasks[t].open[i]), k);
      if k <= i then a == Some(s.tasks[t].open[i - k]) else a == Ancestor(s, s.tasks[t].home, k - i - 1)
    decreases k
  {
    var o := s.tasks[t].open;
    assert o[i] in s.groups && s.groups[o[i]].parent == Below(s.tasks[t], i);
    if k > 0 && i > 0 { ThroughOpen(s, t, i - 1, k - 1); }
  }

  /** A task's walk to a group it does not have open goes through the group it was spawned into. */
  lemma ThroughHome(s: State, t: Tid, k: nat, h: Gid)
    requires t in s.tasks && Rooted(s, t) && Ancestor(s, Current(s.tasks[t]), k) == Some(h) && h !in s.tasks[t].open
    ensures exists j: nat :: Ancestor(s, s.tasks[t].home, j) == Some(h)
  {
    var o := s.tasks[t].open;
    if o != [] {
      ThroughOpen(s, t, |o| - 1, k);
      assert k >= |o|;
      assert Ancestor(s, s.tasks[t].home, k - |o|) == Some(h);
    } else {
      assert Ancestor(s, s.tasks[t].home, k) == Some(h);
    }
  }

  lemma HomeReached(s: State, t: Tid, k: nat)
    requires t in s.tasks && Rooted(s, t)
    ensures exists j: nat :: Ancestor(s, Current(s.tasks[t]), j) == Ancestor(s, s.tasks[t].home, k)
  {
    var o := s.tasks[t].open;
    if o != [] {
      ThroughOpen(s, t, |o| - 1, k + |o|);
      assert Ancestor(s, Current(s.tasks[t]), k + |o|) == Ancestor(s, s.tasks[t].home, k);
    } else {
      assert Ancestor(s, Current(s.tasks[t]), k) == Ancestor(s, s.tasks[t].home, k);
    }
  }

  /** A group one task has open is not open in another. */
  lemma OwnerOnly(s: State, t: Tid, w: Tid, i: nat)
    requires Apart(s) && t in s.tasks && w in s.tasks && t != w && i < |s.tasks[t].open|
    ensures s.tasks[t].open[i] !in s.tasks[w].open
  {
    forall j | 0 <= j < |s.tasks[w].open| ensures s.tasks[w].open[j] != s.tasks[t].open[i] {}
  }

  /* -------------------------------------------------------- one step */

  /** A step that frees nothing keeps every walk. */
  lemma QuietSafe(s: State, x: Label, n: State)
    requires Inv(s) && WalkSafe(s) && Step(s, x, n) && !x.Join?
    ensures WalkSafe(n)
  {
    hide *;
    Parts(s);
    QuietChains(s, x, n);
    forall t, k: nat | t in n.tasks && Unfinished(n, t) ensures There(n, Ancestor(n, Current(n.tasks[t]), k)) {
      QuietTask(s, x, n, t);
      if t in s.tasks && Unfinished(s, t) && Current(n.tasks[t]) == Current(s.tasks[t]) {
        TaskKept(s, n, t, k);
      } else {
        TaskKept(s, n, x.t, k);
        if x.Begin? {
          BegunChain(s, x, n, k);
          if k > 0 { TaskKept(s, n, x.t, k - 1); }
        }
      }
    }
    Unsafe(n);
  }

  lemma Unsafe(s: State)
    requires forall t, k: nat | t in s.tasks && Unfinished(s, t) :: There(s, Ancestor(s, Current(s.tasks[t]), k))
    ensures WalkSafe(s)
  {}

  lemma TaskKept(s: State, n: State, t: Tid, k: nat)
    requires WalkSafe(s) && SameChains(s, n, None) && Unfinished(s, t)
    ensures Ancestor(n, Current(s.tasks[t]), k) == Ancestor(s, Current(s.tasks[t]), k)
    ensures There(n, Ancestor(n, Current(s.tasks[t]), k))
  {
    hide Ancestor, Current, SameChains, There;
    ChainKept(s, n, None, Current(s.tasks[t]), k);
  }

  lemma QuietChains(s: State, x: Label, n: State)
    requires Histories(s) && Step(s, x, n) && !x.Join?
    ensures SameChains(s, n, None)
  {}

  lemma QuietTask(s: State, x: Label, n: State, t: Tid)
    requires Step(s, x, n) && !x.Join? && Unfinished(n, t)
    ensures x.t in s.tasks && Unfinished(s, x.t)
    ensures (t in s.tasks && Unfinished(s, t) && Current(n.tasks[t]) == Current(s.tasks[t]))
         || (x.Spawn? && Current(n.tasks[t]) == Current(s.tasks[x.t]))
         || (x.Begin? && t == x.t && Current(n.tasks[t]) == Some(x.g))
  {}

  lemma BegunChain(s: State, x: Label, n: State, k: nat)
    requires Step(s, x, n) && x.Begin?
    ensures Unfinished(s, x.t)
    ensures Ancestor(n, Some(x.g), k) == if k == 0 then Some(x.g) else Ancestor(n, Current(s.tasks[x.t]), k - 1)
    ensures There(n, Some(x.g))
  {}

  /** The group a join frees. */
  function Freed(s: State, x: Label): Option<Gid> {
    if x.Join? && x.t in s.tasks && s.tasks[x.t].open != [] then Some(Last(s.tasks[x.t].open)) else None
  }

  lemma JoinFrees(s: State, x: Label, n: State)
    requires Step(s, x, n) && x.Join?
    ensures x.t in s.tasks && s.tasks[x.t].open != [] && Unfinished(s, x.t)
    ensures Freed(s, x) == Some(Last(s.tasks[x.t].open)) == Current(s.tasks[x.t])
    ensures Last(s.tasks[x.t].open) == s.tasks[x.t].open[|s.tasks[x.t].open| - 1]
    ensures Last(s.tasks[x.t].open) in s.groups && s.groups[Last(s.tasks[x.t].open)].live == 0
  {}

  lemma JoinChains(s: State, x: Label, n: State)
    requires Step(s, x, n) && x.Join? && Freed(s, x).Some?
    ensures SameChains(s, n, Freed(s, x)) && Freed(s, x).value !in n.groups
    ensures n.tasks.Keys == s.tasks.Keys
  {}

  lemma JoinOthers(s: State, x: Label, n: State, w: Tid)
    requires Step(s, x, n) && x.Join? && w in s.tasks
    ensures w in n.tasks && Unfinished(n, w) == Unfinished(s, w) && n.tasks[w].home == s.tasks[w].home
    ensures w != x.t ==> n.tasks[w] == s.tasks[w]
  {}

  lemma JoinerMoves(s: State, x: Label, n: State)
    requires AllRooted(s) && Step(s, x, n) && x.Join? && x.t in n.tasks && Freed(s, x).Some?
    requires Freed(s, x).value in s.groups
    ensures Current(n.tasks[x.t]) == s.groups[Freed(s, x).value].parent
  {
    assert Rooted(s, x.t);
  }

  lemma MemberLive(s: State, w: Tid, g: Gid)
    requires Counted(s) && g in s.groups && Unfinished(s, w) && s.tasks[w].home == Some(g)
    ensures s.groups[g].live > 0
  {
    assert w in Members(s, g);
  }

  lemma MemberOf(s: State, g: Gid) returns (w: Tid)
    requires Counted(s) && g in s.groups && s.groups[g].live > 0
    ensures Unfinished(s, w) && s.tasks[w].home == Some(g)
  {
    assert Members(s, g) != {};
    w :| w in Members(s, g);
  }

  lemma LiveHome(s: State, w: Tid)
    requires Inv(s) && Unfinished(s, w)
    ensures Rooted(s, w) && There(s, s.tasks[w].home)
  {}

  /** The task that joins h never meets h again on its way up. */
  lemma JoinerMisses(s: State, h: Gid, k: nat)
    requires Histories(s) && h in s.groups
    ensures Ancestor(s, s.groups[h].parent, k) != Some(h)
    ensures Ancestor(s, s.groups[h].parent, k) == Ancestor(s, Some(h), k + 1)
  {
    Descends(s, Some(h), k + 1);
  }

  /** A task other than the joiner whose walk meets h: h is above the group it was spawned into. */
  lemma MeetsFreed(s: State, x: Label, n: State, h: Gid, w: Tid, k: nat)
    requires Inv(s) && Step(s, x, n) && x.Join? && Freed(s, x) == Some(h)
    requires Unfinished(s, w) && w != x.t && Ancestor(s, Current(s.tasks[w]), k) == Some(h)
    ensures Stranded(s, h)
  {
    hide *;
    Parts(s);
    JoinFrees(s, x, n);
    JoinChains(s, x, n);
    LiveHome(s, w);
    KnownTask(s, w);
    OwnerOnly(s, x.t, w, |s.tasks[x.t].open| - 1);
    ThroughHome(s, w, k, h);
    var j: nat :| Ancestor(s, s.tasks[w].home, j) == Some(h);
    HomeSome(s, w, j, h);
    MemberLive(s, w, s.tasks[w].home.value);
    StrandedBy(s, h, s.tasks[w].home.value, j);
  }

  lemma HomeSome(s: State, w: Tid, j: nat, h: Gid)
    requires w in s.tasks && Ancestor(s, s.tasks[w].home, j) == Some(h) && There(s, s.tasks[w].home)
    ensures s.tasks[w].home.Some? && s.tasks[w].home.value in s.groups
  {}

  lemma StrandedBy(s: State, h: Gid, g: Gid, j: nat)
    requires g in s.groups && h in s.groups && s.groups[g].live > 0 && s.groups[h].live == 0
    requires Ancestor(s, Some(g), j) == Some(h)
    ensures Stranded(s, h)
  {
    hide Ancestor;
    assert Strands(s, h, g, j);
  }

  lemma JoinSafe(s: State, x: Label, n: State, h: Gid)
    requires Inv(s) && WalkSafe(s) && Step(s, x, n) && x.Join? && Freed(s, x) == Some(h) && !Stranded(s, h)
    ensures WalkSafe(n)
  {
    hide *;
    Parts(s);
    JoinFrees(s, x, n);
    JoinChains(s, x, n);
    forall w, k: nat | w in n.tasks && Unfinished(n, w) ensures There(n, Ancestor(n, Current(n.tasks[w]), k)) {
      JoinOthers(s, x, n, w);
      JoinerMoves(s, x, n);
      var c := Current(n.tasks[w]);
      forall j: nat | j <= k ensures There(s, Ancestor(s, c, j)) && Ancestor(s, c, j) != Some(h) {
        if w == x.t {
          JoinerMisses(s, h, j);
          SafeAt(s, w, j + 1);
        } else {
          SafeAt(s, w, j);
          if Ancestor(s, c, j) == Some(h) { MeetsFreed(s, x, n, h, w, j); }
        }
      }
      ChainKept(s, n, Some(h), c, k);
    }
    Unsafe(n);
  }

  lemma KnownTask(s: State, w: Tid)
    requires Unfinished(s, w)
    ensures w in s.tasks
  {}

  lemma SafeAt(s: State, w: Tid, k: nat)
    requires WalkSafe(s) && Unfinished(s, w)
    ensures There(s, Ancestor(s, Current(s.tasks[w]), k))
  {}

  lemma JoinUnsafe(s: State, x: Label, n: State, h: Gid)
    requires Inv(s) && WalkSafe(s) && Step(s, x, n) && x.Join? && Freed(s, x) == Some(h) && Stranded(s, h)
    ensures !WalkSafe(n)
  {
    hide *;
    Parts(s);
    JoinFrees(s, x, n);
    JoinChains(s, x, n);
    var g, k := StrandedWhere(s, h);
    var w := MemberOf(s, g);
    LiveHome(s, w);
    HomeReached(s, w, k);
    var j: nat :| Ancestor(s, Current(s.tasks[w]), j) == Ancestor(s, s.tasks[w].home, k);
    KnownTask(s, w);
    JoinOthers(s, x, n, w);
    if w == x.t { JoinerBelow(s, w, h, g, k); }
    forall m: nat | m <= j ensures There(s, Ancestor(s, Current(s.tasks[w]), m)) { SafeAt(s, w, m); }
    ChainHits(s, n, h, Current(s.tasks[w]), j);
    if WalkSafe(n) {
      SafeAt(n, w, j);
      GoneNotThere(n, h);
    }
  }

  lemma GoneNotThere(s: State, h: Gid)
    requires h !in s.groups
    ensures !There(s, Some(h))
  {}

  lemma StrandedWhere(s: State, h: Gid) returns (g: Gid, k: nat)
    requires Stranded(s, h)
    ensures g in s.groups && g != h && s.groups[g].live > 0 && Ancestor(s, Some(g), k) == Some(h)
  {
    g, k :| Strands(s, h, g, k);
  }

  /** The joiner was spawned into a group above h, so h is not above that one. */
  lemma JoinerBelow(s: State, t: Tid, h: Gid, g: Gid, k: nat)
    requires Histories(s) && t in s.tasks && Rooted(s, t) && s.tasks[t].open != [] && Last(s.tasks[t].open) == h
    requires s.tasks[t].home == Some(g)
    ensures g != h ==> Ancestor(s, Some(g), k) != Some(h)
  {
    hide Rooted, Histories;
    Descends(s, Some(g), k);
    var o := s.tasks[t].open;
    ThroughOpen(s, t, |o| - 1, |o|);
    Descends(s, Some(h), |o|);
  }

  lemma StepSafe(s: State, x: Label, n: State)
    requires Inv(s) && WalkSafe(s) && Step(s, x, n)
    ensures WalkSafe(n) <==> !(x.Join? && Freed(s, x).Some? && Stranded(s, Freed(s, x).value))
  {
    hide *;
    if x.Join? {
      JoinFrees(s, x, n);
      var h := Freed(s, x).value;
      if Stranded(s, h) { JoinUnsafe(s, x, n, h); } else { JoinSafe(s, x, n, h); }
    } else {
      QuietSafe(s, x, n);
    }
  }

  /* -------------------------------------------------------- whole runs */

  ghost predicate FreesClean(ss: seq<State>, xs: seq<Label>, i: nat)
    requires i < |ss| && i < |xs|
  {
    Freed(ss[i], xs[i]).Some? ==> !Stranded(ss[i], Freed(ss[i], xs[i]).value)
  }

  lemma StartSafe(s: State)
    requires Init(s)
    ensures WalkSafe(s)
  {}

  lemma {:induction false} SafeSoFar(ss: seq<State>, xs: seq<Label>, m: nat)
    requires Trace(ss, xs) && m < |ss|
    ensures (forall i | 0 <= i <= m :: WalkSafe(ss[i])) <==> (forall i | 0 <= i < m :: FreesClean(ss, xs, i))
  {
    hide *;
    TraceStarts(ss, xs);
    if m == 0 {
      StartSafe(ss[0]);
    } else {
      SafeSoFar(ss, xs, m - 1);
      if WalkSafe(ss[m - 1]) {
        RunKeeps(ss, xs, m - 1);
        TraceStep(ss, xs, m - 1);
        StepSafe(ss[m - 1], xs[m - 1], ss[m]);
        CleanIs(ss, xs, m - 1);
      }
    }
  }

  lemma TraceStarts(ss: seq<State>, xs: seq<Label>)
    requires Trace(ss, xs)
    ensures |ss| == |xs| + 1 && Init(ss[0])
  {}

  lemma CleanIs(ss: seq<State>, xs: seq<Label>, i: nat)
    requires i < |ss| && i < |xs|
    ensures FreesClean(ss, xs, i) <==> !(xs[i].Join? && Freed(ss[i], xs[i]).Some?
                                         && Stranded(ss[i], Freed(ss[i], xs[i]).value))
  {
    hide Stranded;
  }

  /** Walks up the parent chain stay among live groups, in every state of a run, exactly when no
   *  group is freed while it is above one that still has unfinished tasks. */
  lemma WalksAreSafe(ss: seq<State>, xs: seq<Label>)
    requires Trace(ss, xs)
    ensures (forall i | 0 <= i < |ss| :: WalkSafe(ss[i])) <==> (forall i | 0 <= i < |xs| :: FreesClean(ss, xs, i))
  {
    hide *;
    TraceStarts(ss, xs);
    SafeSoFar(ss, xs, |xs|);
  }
}
