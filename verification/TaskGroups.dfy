/** Task groups (runtime/src/task.c): every step any task takes under the global monitor, what
 *  every step keeps, and what a group's join means. */
module TaskGroups {
  import opened Options

  type Gid = nat
  type Tid = nat

  /** A failure: an exception, or an error value that escaped a task; whether it is an error
   *  object, and then whether it is a Cancelled. */
  datatype Failure = Failure(id: nat, isError: bool, cancelled: bool)

  /** VlGroup.  `fails` is history: every failure recorded, in order. */
  datatype Group = Group(parent: Option<Gid>, live: nat, cancelled: bool, deadline: bool,
                         failure: Option<Failure>, suppressed: seq<Failure>, fails: seq<Failure>)

  /** Where a task is: running; in vl_group_end's loop, perhaps timed out; past recording its
   *  outcome; or done. */
  datatype Phase = Running | Joining(timedOut: bool) | Ended | Done

  /** `home` is the group it was spawned into; `open`, the groups it has begun and not ended, the
   *  last of them the context's current group; `blocks`, the groups whose blocks it is in.  An
   *  exception leaves the blocks, but the context's group stays as it was. */
  datatype Task = Task(home: Option<Gid>, open: seq<Gid>, blocks: seq<Gid>, phase: Phase)

  /** `next` is a group not begun yet; every group below it was, and may have been freed. */
  datatype State = State(groups: map<Gid, Group>, tasks: map<Tid, Task>, next: Gid)

  function Last(gs: seq<Gid>): Gid
    requires gs != []
  {
    gs[|gs| - 1]
  }

  /** The context's current group. */
  function Current(t: Task): Option<Gid> {
    if t.open != [] then Some(Last(t.open)) else t.home
  }

  /** What vl_group_end delivers: nothing, or an error with the failures it carries suppressed.
   *  `own` is the error itself: a recorded failure, or the Timeout of an expired deadline. */
  datatype Outcome = Nothing | Delivered(own: Option<Failure>, suppressed: seq<Failure>)

  function Deliver(g: Group, timedOut: bool): Outcome {
    var onlyCancelled := g.failure.None? || !g.failure.value.isError || g.failure.value.cancelled;
    if timedOut && onlyCancelled then
      Delivered(None, (if g.failure.Some? then [g.failure.value] else []) + g.suppressed)
    else if g.failure.None? then Nothing
    else Delivered(g.failure, if g.failure.value.isError then g.suppressed else [])
  }

  /* -------------------------------------------------------- steps */

  predicate Active(s: State, t: Tid) {
    t in s.tasks && s.tasks[t].phase.Running?
  }

  function SetTask(s: State, t: Tid, k: Task): State {
    s.(tasks := s.tasks[t := k])
  }

  function SetGroup(s: State, g: Gid, r: Group): State {
    s.(groups := s.groups[g := r])
  }

  /** vl_group_begin */
  predicate Begins(s: State, t: Tid, g: Gid, deadline: bool, n: State) {
    Active(s, t) && g == s.next
    && var k := s.tasks[t];
    n == SetTask(SetGroup(s, g, Group(Current(k), 0, false, deadline, None, [], [])),
                 t, k.(open := k.open + [g], blocks := k.blocks + [g])).(next := g + 1)
  }

  /** task_new: into the spawner's current group. */
  predicate Spawns(s: State, t: Tid, u: Tid, n: State) {
    Active(s, t) && u !in s.tasks && Current(s.tasks[t]).Some? && Current(s.tasks[t]).value in s.groups
    && var g := Current(s.tasks[t]).value;
    n == SetTask(SetGroup(s, g, s.groups[g].(live := s.groups[g].live + 1)), u, Task(Some(g), [], [], Running))
  }

  /** group_fail */
  function Record(g: Group, f: Failure): Group {
    if g.failure.None? then g.(failure := Some(f), cancelled := true, fails := g.fails + [f])
    else g.(suppressed := g.suppressed + [f], fails := g.fails + [f])
  }

  /** An exception, or a try group's error on its way out of the function, leaves m group blocks
   *  and stops inside the task.  Nothing touches the context's group. */
  predicate Escapes(s: State, t: Tid, m: nat, n: State) {
    Active(s, t) && 0 < m <= |s.tasks[t].blocks|
    && n == SetTask(s, t, s.tasks[t].(blocks := s.tasks[t].blocks[..|s.tasks[t].blocks| - m]))
  }

  /** task_main's body is over: an exception or an error value is recorded.  Only such an end leaves
   *  group blocks behind; groups may be open all the same, escaped from before. */
  predicate Ends(s: State, t: Tid, f: Option<Failure>, n: State) {
    Active(s, t) && s.tasks[t].home.Some? && (s.tasks[t].blocks != [] ==> f.Some?) && s.tasks[t].home.value in s.groups
    && var g := s.tasks[t].home.value;
    n == SetTask(if f.Some? then SetGroup(s, g, Record(s.groups[g], f.value)) else s, t,
                 s.tasks[t].(blocks := [], phase := Ended))
  }

  /** task_main gives up its place in the group. */
  predicate Exits(s: State, t: Tid, n: State) {
    t in s.tasks && s.tasks[t].phase.Ended? && s.tasks[t].home.Some? && s.tasks[t].home.value in s.groups
    && s.groups[s.tasks[t].home.value].live > 0
    && var g := s.tasks[t].home.value;
    n == SetTask(SetGroup(s, g, s.groups[g].(live := s.groups[g].live - 1)), t, s.tasks[t].(phase := Done))
  }

  /** vl_group_end is entered, at the end of a block: it joins the context's group. */
  predicate BeginsJoin(s: State, t: Tid, n: State) {
    Active(s, t) && s.tasks[t].blocks != [] && s.tasks[t].open != []
    && n == SetTask(s, t, s.tasks[t].(phase := Joining(false)))
  }

  /** The join loop sees the deadline has passed. */
  predicate TimesOut(s: State, t: Tid, n: State) {
    t in s.tasks && s.tasks[t].phase.Joining? && s.tasks[t].open != []
    && var g := Last(s.tasks[t].open);
    g in s.groups && s.groups[g].live > 0 && s.groups[g].deadline && !s.groups[g].cancelled
    && n == SetTask(SetGroup(s, g, s.groups[g].(cancelled := true)), t, s.tasks[t].(phase := Joining(true)))
  }

  /** The join loop ends: the group is delivered and freed, and the block is over. */
  predicate Joins(s: State, t: Tid, out: Outcome, n: State) {
    t in s.tasks && s.tasks[t].phase.Joining? && s.tasks[t].open != [] && s.tasks[t].blocks != []
    && var k, g := s.tasks[t], Last(s.tasks[t].open);
    g in s.groups && s.groups[g].live == 0
    && out == Deliver(s.groups[g], k.phase.timedOut)
    && n == SetTask(s.(groups := s.groups - {g}), t,
                    k.(open := k.open[..|k.open| - 1], blocks := k.blocks[..|k.blocks| - 1], phase := Running))
  }

  datatype Label =
    | Begin(t: Tid, g: Gid, deadline: bool) | Spawn(t: Tid, u: Tid) | Escape(t: Tid, m: nat)
    | End(t: Tid, f: Option<Failure>) | Exit(t: Tid)
    | BeginJoin(t: Tid) | TimeOut(t: Tid) | Join(t: Tid, out: Outcome)

  predicate Step(s: State, x: Label, n: State) {
    match x
    case Begin(t, g, deadline) => Begins(s, t, g, deadline, n)
    case Spawn(t, u) => Spawns(s, t, u, n)
    case Escape(t, m) => Escapes(s, t, m, n)
    case End(t, f) => Ends(s, t, f, n)
    case Exit(t) => Exits(s, t, n)
    case BeginJoin(t) => BeginsJoin(s, t, n)
    case TimeOut(t) => TimesOut(s, t, n)
    case Join(t, out) => Joins(s, t, out, n)
  }

  /** The main task alone. */
  predicate Init(s: State) {
    s.groups == map[] && s.next == 0 && s.tasks == map[0 := Task(None, [], [], Running)]
  }

  predicate Trace(ss: seq<State>, xs: seq<Label>) {
    |ss| == |xs| + 1 && Init(ss[0]) && forall i | 0 <= i < |xs| :: Step(ss[i], xs[i], ss[i + 1])
  }

  /* -------------------------------------------------------- the invariant */

  /** The tasks spawned into g and not done. */
  function Members(s: State, g: Gid): set<Tid> {
    set t | t in s.tasks && s.tasks[t].home == Some(g) && !s.tasks[t].phase.Done?
  }

  /** Each group's count is the number of its tasks not done. */
  ghost predicate Counted(s: State) {
    forall g | g in s.groups :: s.groups[g].live == |Members(s, g)|
  }

  /** A live task's groups are there: the one it was spawned into, and the ones it has open, each
   *  the parent of the next. */
  predicate Rooted(s: State, t: Tid)
    requires t in s.tasks
  {
    var k := s.tasks[t];
    && (!k.phase.Done? && k.home.Some? ==> k.home.value in s.groups)
    && (k.phase.Done? || k.phase.Ended? ==> k.blocks == [] && k.home.Some?)
    && (k.phase.Joining? ==> k.blocks != [])
    && |k.blocks| <= |k.open|
    && forall i | 0 <= i < |k.open| :: k.open[i] in s.groups && s.groups[k.open[i]].parent == Below(k, i)
  }

  /** The group below the i-th open one. */
  function Below(k: Task, i: nat): Option<Gid>
    requires i <= |k.open|
  {
    if i > 0 then Some(k.open[i - 1]) else k.home
  }

  /** A group is open in one task, once. */
  predicate Apart(s: State) {
    forall t, u, i, j | t in s.tasks && u in s.tasks && 0 <= i < |s.tasks[t].open| && 0 <= j < |s.tasks[u].open| ::
      s.tasks[t].open[i] == s.tasks[u].open[j] ==> t == u && i == j
  }

  /** Every group there is open in some task. */
  predicate OpenIn(s: State, g: Gid, t: Tid, i: nat) {
    t in s.tasks && i < |s.tasks[t].open| && s.tasks[t].open[i] == g
  }

  ghost predicate AllOpen(s: State) {
    forall g | g in s.groups :: exists t, i :: OpenIn(s, g, t, i)
  }

  /** What a group holds is its history: the first failure, and the rest in order. */
  predicate Kept(g: Group) {
    if g.fails == [] then g.failure == None && g.suppressed == []
    else g.failure == Some(g.fails[0]) && g.suppressed == g.fails[1..] && g.cancelled
  }

  /** A freed group is gone: no task is still in it. */
  predicate Gone(s: State, g: Gid) {
    forall t | t in s.tasks && s.tasks[t].home == Some(g) :: s.tasks[t].phase.Done?
  }

  ghost predicate AllRooted(s: State) {
    forall t | t in s.tasks :: Rooted(s, t)
  }

  /** A group's parent was begun before it. */
  predicate Older(parent: Option<Gid>, g: Gid) {
    parent.Some? ==> parent.value < g
  }

  predicate Histories(s: State) {
    forall g | g in s.groups :: Kept(s.groups[g]) && g < s.next && Older(s.groups[g].parent, g)
  }

  /** A group in use was begun. */
  predicate Begun(s: State, k: Task) {
    (k.home.Some? ==> k.home.value < s.next) && forall i | 0 <= i < |k.open| :: k.open[i] < s.next
  }

  predicate AllBegun(s: State) {
    forall t | t in s.tasks :: Begun(s, s.tasks[t])
  }

  ghost predicate FreedGone(s: State) {
    forall g: Gid | g < s.next && g !in s.groups :: Gone(s, g)
  }

  ghost predicate Inv(s: State) {
    Counted(s) && AllRooted(s) && Apart(s) && Histories(s) && AllBegun(s) && FreedGone(s) && AllOpen(s)
  }

  /* -------------------------------------------------------- a task moves on */

  lemma MembersMoved(s: State, n: State, t: Tid, g: Gid)
    requires t in s.tasks && t in n.tasks && n.tasks == s.tasks[t := n.tasks[t]] && n.tasks[t].home == s.tasks[t].home
    ensures s.tasks[t].home != Some(g) || (s.tasks[t].phase.Done? <==> n.tasks[t].phase.Done?) ==>
        Members(n, g) == Members(s, g)
    ensures s.tasks[t].home == Some(g) && !s.tasks[t].phase.Done? && n.tasks[t].phase.Done? ==>
              Members(n, g) == Members(s, g) - {t} && t in Members(s, g)
  {}

  /** Task t changes its phase and perhaps its groups' counts, flags and failures. */
  predicate Onward(s: State, t: Tid, n: State) {
    && t in s.tasks && t in n.tasks && n.tasks == s.tasks[t := n.tasks[t]] && n.next == s.next
    && n.tasks[t] == s.tasks[t].(phase := n.tasks[t].phase, blocks := n.tasks[t].blocks)
    && (s.tasks[t].phase.Done? ==> n.tasks[t].phase.Done?)
    && n.groups.Keys == s.groups.Keys
    && forall g | g in s.groups :: n.groups[g].parent == s.groups[g].parent
  }

  lemma OnwardKeeps(s: State, t: Tid, n: State)
    requires AllRooted(s) && Apart(s) && AllBegun(s) && FreedGone(s) && AllOpen(s) && Onward(s, t, n) && Rooted(n, t)
    ensures AllRooted(n) && Apart(n) && AllBegun(n) && FreedGone(n) && AllOpen(n)
  {
    hide *;
    OnwardOpen(s, t, n);
    OnwardRooted(s, t, n);
    OnwardApart(s, t, n);
    OnwardNamed(s, t, n);
  }

  lemma OnwardOpen(s: State, t: Tid, n: State)
    requires AllOpen(s) && Onward(s, t, n)
    ensures AllOpen(n)
  {
    OpenKept(s, t, n);
  }

  lemma OnwardRooted(s: State, t: Tid, n: State)
    requires AllRooted(s) && Onward(s, t, n) && Rooted(n, t)
    ensures AllRooted(n)
  {
    forall u | u in n.tasks ensures Rooted(n, u) { if u != t { assert Rooted(s, u); } }
  }

  lemma OnwardApart(s: State, t: Tid, n: State)
    requires Apart(s) && Onward(s, t, n)
    ensures Apart(n)
  {
    forall u | u in n.tasks ensures u in s.tasks && n.tasks[u].open == s.tasks[u].open {}
  }

  lemma OnwardNamed(s: State, t: Tid, n: State)
    requires AllBegun(s) && FreedGone(s) && Onward(s, t, n)
    ensures AllBegun(n) && FreedGone(n)
  {
    forall u | u in n.tasks ensures Begun(n, n.tasks[u]) { assert Begun(s, s.tasks[u]); }
    forall g: Gid | g < n.next && g !in n.groups ensures Gone(n, g) { assert Gone(s, g); }
  }

  /** Groups stay open while their task only adds to the groups it has open. */
  lemma OpenKept(s: State, t: Tid, n: State)
    requires AllOpen(s) && t in s.tasks && t in n.tasks && s.tasks[t].open <= n.tasks[t].open
    requires forall u | u in s.tasks && u != t :: u in n.tasks && n.tasks[u] == s.tasks[u]
    requires n.groups.Keys == s.groups.Keys
    ensures AllOpen(n)
  {
    forall g | g in n.groups ensures exists u, i :: OpenIn(n, g, u, i) {
      assert g in s.groups.Keys;
      var u, i :| OpenIn(s, g, u, i);
      assert OpenIn(n, g, u, i);
    }
  }

  lemma Parts(s: State)
    requires Inv(s)
    ensures Counted(s) && AllRooted(s) && Apart(s) && Histories(s) && AllBegun(s) && FreedGone(s) && AllOpen(s)
  {}

  lemma InvFromParts(s: State)
    requires Counted(s) && AllRooted(s) && Apart(s) && Histories(s) && AllBegun(s) && FreedGone(s) && AllOpen(s)
    ensures Inv(s)
  {}

  lemma KeepBegins(s: State, t: Tid, g: Gid, deadline: bool, n: State)
    requires Inv(s) && Begins(s, t, g, deadline, n)
    ensures Inv(n)
  {
    hide *;
    Parts(s);
    BeginsCounted(s, t, g, deadline, n);
    BeginsRooted(s, t, g, deadline, n);
    BeginsNamed(s, t, g, deadline, n);
    BeginsOpen(s, t, g, deadline, n);
    InvFromParts(n);
  }

  lemma BeginsOpen(s: State, t: Tid, g: Gid, deadline: bool, n: State)
    requires AllOpen(s) && Begins(s, t, g, deadline, n)
    ensures AllOpen(n)
  {
    forall h | h in n.groups ensures exists u, i :: OpenIn(n, h, u, i) {
      if h == g {
        assert OpenIn(n, g, t, |s.tasks[t].open|);
      } else {
        var u, i :| OpenIn(s, h, u, i);
        assert OpenIn(n, h, u, i);
      }
    }
  }

  lemma BeginsCounted(s: State, t: Tid, g: Gid, deadline: bool, n: State)
    requires Counted(s) && Histories(s) && AllBegun(s) && Begins(s, t, g, deadline, n)
    ensures Counted(n) && Histories(n)
  {
    hide Members, Apart;
    assert Members(s, g) == {} by { NoMembers(s, g); }
    forall h | h in n.groups ensures n.groups[h].live == |Members(n, h)| { MembersMoved(s, n, t, h); }
  }

  lemma NoMembers(s: State, g: Gid)
    requires AllBegun(s) && g >= s.next
    ensures Members(s, g) == {}
  {
    forall u | u in s.tasks ensures s.tasks[u].home != Some(g) { assert Begun(s, s.tasks[u]); }
  }

  lemma BeginsRooted(s: State, t: Tid, g: Gid, deadline: bool, n: State)
    requires AllRooted(s) && AllBegun(s) && Histories(s) && Begins(s, t, g, deadline, n)
    ensures AllRooted(n) && AllBegun(n)
  {
    forall u | u in n.tasks ensures Rooted(n, u) {
      assert Rooted(s, u) && Begun(s, s.tasks[u]);
    }
    forall u | u in n.tasks ensures Begun(n, n.tasks[u]) { assert Begun(s, s.tasks[u]); }
  }

  lemma BeginsNamed(s: State, t: Tid, g: Gid, deadline: bool, n: State)
    requires Apart(s) && AllBegun(s) && FreedGone(s) && Begins(s, t, g, deadline, n)
    ensures Apart(n) && FreedGone(n)
  {
    forall u, i | u in s.tasks && 0 <= i < |s.tasks[u].open| ensures s.tasks[u].open[i] != g {
      assert Begun(s, s.tasks[u]);
    }
    forall h: Gid | h < n.next && h !in n.groups ensures Gone(n, h) { assert Gone(s, h); }
  }

  lemma KeepSpawns(s: State, t: Tid, u: Tid, n: State)
    requires Inv(s) && Spawns(s, t, u, n)
    ensures Inv(n)
  {
    hide *;
    Parts(s);
    SpawnsCounted(s, t, u, n);
    SpawnsRooted(s, t, u, n);
    SpawnsNamed(s, t, u, n);
    SpawnsOpen(s, t, u, n);
    InvFromParts(n);
  }

  lemma SpawnsOpen(s: State, t: Tid, u: Tid, n: State)
    requires AllOpen(s) && Spawns(s, t, u, n)
    ensures AllOpen(n)
  {
    OpenKept(s, t, n);
  }

  lemma MembersJoined(s: State, n: State, u: Tid, g: Gid, h: Gid)
    requires u !in s.tasks && n.tasks == s.tasks[u := Task(Some(g), [], [], Running)]
    ensures u !in Members(s, h) && Members(n, h) == if h == g then Members(s, h) + {u} else Members(s, h)
  {
    forall v ensures v in Members(n, h) <==> v in Members(s, h) || (v == u && h == g) {}
  }

  lemma SpawnsCounted(s: State, t: Tid, u: Tid, n: State)
    requires Counted(s) && Histories(s) && Spawns(s, t, u, n)
    ensures Counted(n) && Histories(n)
  {
    hide Members;
    var g := Current(s.tasks[t]).value;
    forall h | h in n.groups ensures n.groups[h].live == |Members(n, h)| { MembersJoined(s, n, u, g, h); }
  }

  lemma SpawnsRooted(s: State, t: Tid, u: Tid, n: State)
    requires AllRooted(s) && AllBegun(s) && Histories(s) && Spawns(s, t, u, n)
    ensures AllRooted(n) && AllBegun(n)
  {
    forall v | v in n.tasks ensures Rooted(n, v) { if v != u { assert Rooted(s, v); } }
    forall v | v in n.tasks ensures Begun(n, n.tasks[v]) { if v != u { assert Begun(s, s.tasks[v]); } }
  }

  lemma SpawnsNamed(s: State, t: Tid, u: Tid, n: State)
    requires Apart(s) && FreedGone(s) && Spawns(s, t, u, n)
    ensures Apart(n) && FreedGone(n)
  {
    forall h: Gid | h < n.next && h !in n.groups ensures Gone(n, h) { assert Gone(s, h); }
  }

  lemma KeepEnds(s: State, t: Tid, f: Option<Failure>, n: State)
    requires Inv(s) && Ends(s, t, f, n)
    ensures Inv(n)
  {
    hide *;
    Parts(s);
    EndsOnward(s, t, f, n);
    OnwardKeeps(s, t, n);
    EndsCounted(s, t, f, n);
    InvFromParts(n);
  }

  lemma EndsOnward(s: State, t: Tid, f: Option<Failure>, n: State)
    requires AllRooted(s) && Ends(s, t, f, n)
    ensures Onward(s, t, n) && Rooted(n, t)
  {
    assert Rooted(s, t);
  }

  lemma EndsCounted(s: State, t: Tid, f: Option<Failure>, n: State)
    requires Counted(s) && Histories(s) && Ends(s, t, f, n)
    ensures Counted(n) && Histories(n)
  {
    hide Members;
    forall h | h in n.groups ensures n.groups[h].live == |Members(n, h)| { MembersMoved(s, n, t, h); }
    assert Kept(s.groups[s.tasks[t].home.value]);
  }

  lemma KeepExits(s: State, t: Tid, n: State)
    requires Inv(s) && Exits(s, t, n)
    ensures Inv(n)
  {
    hide *;
    Parts(s);
    ExitsOnward(s, t, n);
    OnwardKeeps(s, t, n);
    ExitsCounted(s, t, n);
    InvFromParts(n);
  }

  lemma ExitsOnward(s: State, t: Tid, n: State)
    requires AllRooted(s) && Exits(s, t, n)
    ensures Onward(s, t, n) && Rooted(n, t)
  {
    assert Rooted(s, t);
  }

  lemma ExitsCounted(s: State, t: Tid, n: State)
    requires Counted(s) && Histories(s) && Exits(s, t, n)
    ensures Counted(n) && Histories(n)
  {
    hide Members;
    forall h | h in n.groups ensures n.groups[h].live == |Members(n, h)| { MembersMoved(s, n, t, h); }
  }

  lemma KeepJoining(s: State, t: Tid, n: State)
    requires Inv(s) && (BeginsJoin(s, t, n) || TimesOut(s, t, n) || (exists m :: Escapes(s, t, m, n)))
    ensures Inv(n)
  {
    hide *;
    Parts(s);
    JoiningOnward(s, t, n);
    OnwardKeeps(s, t, n);
    JoiningCounted(s, t, n);
    InvFromParts(n);
  }

  lemma JoiningOnward(s: State, t: Tid, n: State)
    requires AllRooted(s) && (BeginsJoin(s, t, n) || TimesOut(s, t, n) || (exists m :: Escapes(s, t, m, n)))
    ensures Onward(s, t, n) && Rooted(n, t)
  {
    assert Rooted(s, t);
  }

  lemma JoiningCounted(s: State, t: Tid, n: State)
    requires Counted(s) && Histories(s)
    requires (BeginsJoin(s, t, n) || TimesOut(s, t, n) || (exists m :: Escapes(s, t, m, n)))
    ensures Counted(n) && Histories(n)
  {
    hide Members;
    forall h | h in n.groups ensures n.groups[h].live == |Members(n, h)| { MembersMoved(s, n, t, h); }
  }

  /** Every task ever spawned into the group being joined is done. */
  lemma AllDone(s: State, t: Tid, out: Outcome, n: State)
    requires Counted(s) && Joins(s, t, out, n)
    ensures Gone(s, Last(s.tasks[t].open))
  {
    var g := Last(s.tasks[t].open);
    assert s.groups[g].live == |Members(s, g)|;
    forall u | u in s.tasks && s.tasks[u].home == Some(g) ensures s.tasks[u].phase.Done? {
      assert u !in Members(s, g);
    }
  }

  lemma KeepJoins(s: State, t: Tid, out: Outcome, n: State)
    requires Inv(s) && Joins(s, t, out, n)
    ensures Inv(n)
  {
    hide *;
    Parts(s);
    JoinsCounted(s, t, out, n);
    JoinsRooted(s, t, out, n);
    JoinsNamed(s, t, out, n);
    JoinsOpen(s, t, out, n);
    InvFromParts(n);
  }

  lemma JoinsCounted(s: State, t: Tid, out: Outcome, n: State)
    requires Counted(s) && Histories(s) && Joins(s, t, out, n)
    ensures Counted(n) && Histories(n)
  {
    hide Members;
    forall h | h in n.groups ensures n.groups[h].live == |Members(n, h)| { MembersMoved(s, n, t, h); }
  }

  lemma JoinsOpen(s: State, t: Tid, out: Outcome, n: State)
    requires AllOpen(s) && Joins(s, t, out, n)
    ensures AllOpen(n)
  {
    forall h | h in n.groups ensures exists u, i :: OpenIn(n, h, u, i) {
      var u, i :| OpenIn(s, h, u, i);
      assert OpenIn(n, h, u, i);
    }
  }

  lemma JoinsRooted(s: State, t: Tid, out: Outcome, n: State)
    requires Counted(s) && AllRooted(s) && Apart(s) && Joins(s, t, out, n)
    ensures AllRooted(n)
  {
    AllDone(s, t, out, n);
    forall u | u in n.tasks ensures Rooted(n, u) {
      assert Rooted(s, u) && Rooted(s, t);
    }
  }

  lemma JoinsNamed(s: State, t: Tid, out: Outcome, n: State)
    requires Counted(s) && Apart(s) && AllBegun(s) && FreedGone(s) && Joins(s, t, out, n)
    ensures Apart(n) && AllBegun(n) && FreedGone(n)
  {
    AllDone(s, t, out, n);
    var g := Last(s.tasks[t].open);
    forall u | u in n.tasks ensures Begun(n, n.tasks[u]) { assert Begun(s, s.tasks[u]); }
    forall h: Gid | h < n.next && h !in n.groups ensures Gone(n, h) {
      if h != g { assert Gone(s, h); }
    }
  }

  lemma StepKeeps(s: State, x: Label, n: State)
    requires Inv(s) && Step(s, x, n)
    ensures Inv(n)
  {
    hide Inv, Begins, Spawns, Escapes, Ends, Exits, BeginsJoin, TimesOut, Joins;
    match x
    case Begin(t, g, deadline) => KeepBegins(s, t, g, deadline, n);
    case Spawn(t, u) => KeepSpawns(s, t, u, n);
    case End(t, f) => KeepEnds(s, t, f, n);
    case Exit(t) => KeepExits(s, t, n);
    case Escape(t, m) => KeepJoining(s, t, n);
    case BeginJoin(t) => KeepJoining(s, t, n);
    case TimeOut(t) => KeepJoining(s, t, n);
    case Join(t, out) => KeepJoins(s, t, out, n);
  }

  lemma InitKeeps(s: State)
    requires Init(s)
    ensures Inv(s)
  {}

  lemma {:induction false} RunKeeps(ss: seq<State>, xs: seq<Label>, i: nat)
    requires Trace(ss, xs) && i < |ss|
    ensures Inv(ss[i])
  {
    hide Inv, Step;
    if i == 0 {
      InitKeeps(ss[0]);
    } else {
      RunKeeps(ss, xs, i - 1);
      StepKeeps(ss[i - 1], xs[i - 1], ss[i]);
    }
  }

  /* -------------------------------------------------------- what it means */

  /** The join loop ends only when every task ever spawned into the group, by anyone, is done. */
  lemma JoinWaitsForAll(ss: seq<State>, xs: seq<Label>, i: nat, t: Tid, u: Tid)
    requires Trace(ss, xs) && i < |xs| && xs[i].Join? && xs[i].t == t && u in ss[i].tasks
    ensures t in ss[i].tasks && ss[i].tasks[t].open != []
    ensures ss[i].tasks[u].home == Some(Last(ss[i].tasks[t].open)) ==> ss[i].tasks[u].phase.Done?
  {
    hide Inv, Counted, AllRooted, Apart, Histories, AllBegun, FreedGone, AllOpen;
    RunKeeps(ss, xs, i);
    assert Step(ss[i], xs[i], ss[i + 1]);
    assert Counted(ss[i]) by { InvCounted(ss[i]); }
    AllDone(ss[i], t, xs[i].out, ss[i + 1]);
  }

  lemma InvCounted(s: State)
    requires Inv(s)
    ensures Counted(s)
  {}

  lemma StaysFreed(s: State, x: Label, n: State, g: Gid)
    requires Step(s, x, n) && g < s.next && g !in s.groups
    ensures g < n.next && g !in n.groups
  {}

  /** And none is spawned into it afterwards. */
  lemma {:induction false} NeverSpawnedAgain(ss: seq<State>, xs: seq<Label>, i: nat, j: nat, g: Gid, u: Tid)
    requires Trace(ss, xs) && i <= j < |ss| && g < ss[i].next && g !in ss[i].groups
    ensures g < ss[j].next && g !in ss[j].groups
    ensures u in ss[j].tasks && ss[j].tasks[u].home == Some(g) ==> ss[j].tasks[u].phase.Done?
    decreases j
  {
    hide Step, Init, Counted, AllRooted, Apart, Histories, AllBegun, AllOpen;
    if i < j {
      NeverSpawnedAgain(ss, xs, i, j - 1, g, u);
      StaysFreed(ss[j - 1], xs[j - 1], ss[j], g);
    }
    RunKeeps(ss, xs, j);
    assert Gone(ss[j], g);
  }

  /** The failures the run has recorded for group g, in the order their tasks ended. */
  function Recorded(ss: seq<State>, xs: seq<Label>, i: nat, g: Gid): seq<Failure>
    requires i <= |xs| < |ss|
  {
    if i == 0 then []
    else
      Recorded(ss, xs, i - 1, g) + Added(ss[i - 1], xs[i - 1], g)
  }

  function Added(s: State, x: Label, g: Gid): seq<Failure> {
    if x.End? && x.f.Some? && x.t in s.tasks && s.tasks[x.t].home == Some(g) then [x.f.value] else []
  }

  /** What a step does to the history of a group that is there before and after. */
  lemma FailsMove(s: State, x: Label, n: State, g: Gid)
    requires Step(s, x, n) && Histories(s) && g in s.groups && g in n.groups
    ensures n.groups[g].fails == s.groups[g].fails + Added(s, x, g)
  {
    assert s.groups[g].fails + [] == s.groups[g].fails;
    match x
    case End(t, f) => EndRecords(s, t, f, n, g);
    case _ => assert Added(s, x, g) == [];
  }

  lemma EndRecords(s: State, t: Tid, f: Option<Failure>, n: State, g: Gid)
    requires Ends(s, t, f, n) && g in s.groups && g in n.groups
    ensures n.groups[g].fails == s.groups[g].fails + Added(s, End(t, f), g)
  {
    assert s.groups[g].fails + [] == s.groups[g].fails;
  }

  lemma EndKeys(s: State, t: Tid, f: Option<Failure>, n: State)
    requires Ends(s, t, f, n)
    ensures n.groups.Keys == s.groups.Keys
  {}

  /** A new group starts with no history. */
  lemma StartsEmpty(s: State, x: Label, n: State, g: Gid)
    requires Step(s, x, n) && g in n.groups && g !in s.groups
    ensures g >= s.next && n.groups[g].fails == []
  {
    match x
    case Begin(t, h, deadline) => assert n.groups.Keys == s.groups.Keys + {h};
    case End(t, f) => EndKeys(s, t, f, n);
    case _ =>
  }

  lemma RecordedStep(s: State, x: Label, n: State, g: Gid)
    requires Step(s, x, n) && Histories(s)
    ensures g in s.groups && g in n.groups ==> n.groups[g].fails == s.groups[g].fails + Added(s, x, g)
    ensures g in n.groups && g !in s.groups ==> g >= s.next && n.groups[g].fails == []
  {
    hide *;
    if g in n.groups {
      if g in s.groups { FailsMove(s, x, n, g); } else { StartsEmpty(s, x, n, g); }
    }
  }

  lemma NoneAdded(s: State, x: Label, n: State, g: Gid)
    requires AllBegun(s) && g >= s.next
    ensures Added(s, x, g) == []
  {
    if x.End? && x.t in s.tasks { assert Begun(s, s.tasks[x.t]); }
  }

  lemma {:induction false} HistoryIs(ss: seq<State>, xs: seq<Label>, i: nat, g: Gid)
    requires Trace(ss, xs) && i < |ss|
    ensures g in ss[i].groups ==> ss[i].groups[g].fails == Recorded(ss, xs, i, g)
    ensures g >= ss[i].next ==> Recorded(ss, xs, i, g) == []
  {
    hide Inv, Step, AllBegun, Added, Histories;
    if i > 0 {
      HistoryIs(ss, xs, i - 1, g);
      RunKeeps(ss, xs, i - 1);
      assert Step(ss[i - 1], xs[i - 1], ss[i]);
      InvBegun(ss[i - 1]);
      RecordedStep(ss[i - 1], xs[i - 1], ss[i], g);
      if g >= ss[i - 1].next { NoneAdded(ss[i - 1], xs[i - 1], ss[i], g); }
      UsedGrows(ss[i - 1], xs[i - 1], ss[i]);
    }
  }

  lemma UsedGrows(s: State, x: Label, n: State)
    requires Step(s, x, n)
    ensures s.next <= n.next
  {}

  lemma InvBegun(s: State)
    requires Inv(s)
    ensures AllBegun(s) && Histories(s)
  {}

  /** What a join delivers: the first failure recorded, the others suppressed, once each and in
   *  order; or a Timeout with all of them, when the deadline fired and the first was only the
   *  cancellation it caused. */
  lemma DeliveredError(ss: seq<State>, xs: seq<Label>, i: nat)
    requires Trace(ss, xs) && i < |xs| && xs[i].Join?
    ensures xs[i].t in ss[i].tasks && ss[i].tasks[xs[i].t].open != [] && ss[i].tasks[xs[i].t].phase.Joining?
    ensures var k := ss[i].tasks[xs[i].t];
      var fails := Recorded(ss, xs, i, Last(k.open));
      xs[i].out
      == if k.phase.timedOut && (fails == [] || !fails[0].isError || fails[0].cancelled) then Delivered(None, fails)
         else if fails == [] then Nothing
         else Delivered(Some(fails[0]), if fails[0].isError then fails[1..] else [])
  {
    hide *;
    TraceStep(ss, xs, i);
    JoinOf(ss[i], xs[i], ss[i + 1]);
    var k := ss[i].tasks[xs[i].t];
    var g := Last(k.open);
    HistoryIs(ss, xs, i, g);
    RunKeeps(ss, xs, i);
    InvBegun(ss[i]);
    KeptAt(ss[i], g);
    DeliverKept(ss[i].groups[g], k.phase.timedOut);
  }

  lemma TraceStep(ss: seq<State>, xs: seq<Label>, i: nat)
    requires Trace(ss, xs) && i < |xs|
    ensures |ss| == |xs| + 1 && Step(ss[i], xs[i], ss[i + 1])
  {}

  lemma KeptAt(s: State, g: Gid)
    requires Histories(s) && g in s.groups
    ensures Kept(s.groups[g])
  {}

  lemma JoinOf(s: State, x: Label, n: State)
    requires Step(s, x, n) && x.Join?
    ensures x.t in s.tasks && s.tasks[x.t].open != [] && s.tasks[x.t].phase.Joining?
    ensures var g := Last(s.tasks[x.t].open);
      g in s.groups && x.out == Deliver(s.groups[g], s.tasks[x.t].phase.timedOut)
  {}

  lemma DeliverKept(g: Group, timedOut: bool)
    requires Kept(g)
    ensures Deliver(g, timedOut)
         == if timedOut && (g.fails == [] || !g.fails[0].isError || g.fails[0].cancelled) then Delivered(None, g.fails)
            else if g.fails == [] then Nothing
            else Delivered(Some(g.fails[0]), if g.fails[0].isError then g.fails[1..] else [])
  {
    if g.fails != [] { assert [g.fails[0]] + g.fails[1..] == g.fails; }
  }
}
