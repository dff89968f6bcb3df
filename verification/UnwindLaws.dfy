/** Laws of handlers, recovery points and cleanups that a reader expects of them, in terms of what
 *  whole programs do. */
module UnwindLaws {
  import opened UnwindMeaning

  /* -------------------------------------------------------- recovery points */

  /** A recovery point over b: what leaves b with an exception that is no fault leaves it with the
   *  same one, if there is a handler, and else ends the process; a fault it keeps; and where
   *  nothing leaves b by an exception it makes no difference. */
  lemma ContainExact(b: Cmd, late: seq<Late>, p: Exc, caught: bool, recover: nat)
    ensures var r, q := Eval(b, late, p, true, recover + 1), Eval(Contain(b), late, p, caught, recover);
      && (!r.end.Exn? ==> q == r)
      && (r.end.Exn? && r.pending.fault ==>
            q.end.Ok? && q.log == r.log + RunAll(r.end.owed) + [Contained(r.pending.id)])
      && (r.end.Exn? && !r.pending.fault ==>
            q.log == r.log + RunAll(r.end.owed)
            && if caught then q.end == Exn(r.pending, []) && q.pending == r.pending else q.end.Dead?)
  {
    hide Eval;
    UnfoldContain(b, late, p, caught, recover);
    var r := Eval(b, late, p, true, recover + 1);
    if r.end.Exn? {
      var log := r.log + RunAll(r.end.owed);
      assert log + [] == log;
    }
  }

  lemma UnfoldContain(b: Cmd, late: seq<Late>, p: Exc, caught: bool, recover: nat)
    ensures var r, q := Eval(b, late, p, true, recover + 1), Eval(Contain(b), late, p, caught, recover);
      if !r.end.Exn? then q == r
      else
        var z := Recover(r.late, r.pending, caught);
        q == z.(log := (r.log + RunAll(r.end.owed)) + z.log)
  {}

  lemma UnfoldTry(b: Cmd, k: Cmd, late: seq<Late>, p: Exc, caught: bool, recover: nat)
    ensures var r, q := Eval(b, late, p, true, recover), Eval(Try(b, k), late, p, caught, recover);
      if !r.end.Exn? then q == r
      else
        var z := Catch(k, r.late, r.pending, caught, recover);
        q == z.(log := (r.log + RunAll(r.end.owed)) + z.log)
  {}

  /** Nothing in c faults. */
  predicate Faultless(c: Cmd) {
    match c
    case Throw(e) => !e.fault
    case Fault(_) => false
    case Defer(_, b) => Faultless(b)
    case Seq(x, y) => Faultless(x) && Faultless(y)
    case Native(_, b) => Faultless(b)
    case Call(_, b) => Faultless(b)
    case Try(b, k) => Faultless(b) && Faultless(k)
    case Contain(b) => Faultless(b)
    case _ => true
  }

  predicate FaultlessLate(late: seq<Late>) { forall d | d in late :: Faultless(d.body) }

  predicate NothingContained(log: seq<Event>) { forall i | 0 <= i < |log| :: !log[i].Contained? }

  /** No fault is left behind, and none was contained. */
  predicate Harmless(r: Result) {
    NothingContained(r.log) && FaultlessLate(r.late) && !r.pending.fault && (r.end.Exn? ==> !r.end.e.fault)
  }

  lemma {:induction false} BindFaultless(c: Cmd, e: Exc)
    requires Faultless(c) && !e.fault
    ensures Faultless(Bind(c, e))
  {
    match c
    case Defer(_, b) => BindFaultless(b, e);
    case Seq(x, y) => BindFaultless(x, e); BindFaultless(y, e);
    case Native(_, b) => BindFaultless(b, e);
    case Call(_, b) => BindFaultless(b, e);
    case Try(b, _) => BindFaultless(b, e);
    case Contain(b) => BindFaultless(b, e);
    case _ =>
  }

  lemma {:induction false} CleanupsContainNothing(owed: seq<Entry>)
    ensures NothingContained(RunAll(owed))
  {
    if owed != [] { CleanupsContainNothing(owed[1..]); }
  }

  /** A program without faults logs no recovery, and does the same under any number of recovery
   *  points. */
  lemma {:induction false} FaultlessRuns(c: Cmd, late: seq<Late>, p: Exc, caught: bool, recover: nat, other: nat)
    requires Faultless(c) && FaultlessLate(late) && !p.fault
    ensures Harmless(Eval(c, late, p, caught, recover))
    ensures Eval(c, late, p, caught, recover) == Eval(c, late, p, caught, other)
    decreases Weight(c), 0
  {
    hide EvalCall, RunAll, Bind;
    match c
    case Seq(x, y) =>
      FaultlessRuns(x, late, p, caught, recover, other);
      var r := Eval(x, late, p, caught, recover);
      if r.end.Ok? { FaultlessRuns(y, r.late, r.pending, caught, recover, other); }
    case Native(_, b) => FaultlessRuns(b, late, p, caught, recover, other);
    case Call(id, b) => FaultlessCalls(id, b, p, caught, recover, other);
    case Try(b, k) => FaultlessTries(b, k, late, p, caught, recover, other);
    case Contain(b) =>
      FaultlessRuns(b, late, p, true, recover + 1, other + 1);
      var r := Eval(b, late, p, true, recover + 1);
      if r.end.Exn? { CleanupsContainNothing(r.end.owed); }
    case _ =>
  }

  lemma {:induction false} FaultlessTries(b: Cmd, k: Cmd, late: seq<Late>, p: Exc, caught: bool, recover: nat,
                                          other: nat)
    requires Faultless(b) && Faultless(k) && FaultlessLate(late) && !p.fault
    ensures Harmless(Eval(Try(b, k), late, p, caught, recover))
    ensures Eval(Try(b, k), late, p, caught, recover) == Eval(Try(b, k), late, p, caught, other)
    decreases Weight(b) + Weight(k), 1
  {
    hide Eval, RunAll, Bind, NothingContained;
    FaultlessRuns(b, late, p, true, recover, other);
    UnfoldTry(b, k, late, p, caught, recover);
    UnfoldTry(b, k, late, p, caught, other);
    var r := Eval(b, late, p, true, recover);
    if r.end.Exn? {
      CleanupsContainNothing(r.end.owed);
      BindFaultless(k, r.pending);
      FaultlessRuns(Bind(k, r.pending), r.late, r.pending, caught, recover, other);
      var q := Eval(Bind(k, r.pending), r.late, r.pending, caught, recover);
      NothingBoth([Caught(r.pending)], q.log);
      NothingBoth(r.log, RunAll(r.end.owed));
      NothingBoth(r.log + RunAll(r.end.owed), [Caught(r.pending)] + q.log);
    }
  }

  lemma NothingBoth(x: seq<Event>, y: seq<Event>)
    requires (NothingContained(x) || (|x| == 1 && x[0].Caught?)) && NothingContained(y)
    ensures NothingContained(x + y)
  {}

  lemma {:induction false} FaultlessCalls(id: nat, b: Cmd, p: Exc, caught: bool, recover: nat, other: nat)
    requires Faultless(b) && !p.fault
    ensures Harmless(EvalCall(id, b, p, caught, recover))
    ensures EvalCall(id, b, p, caught, recover) == EvalCall(id, b, p, caught, other)
    decreases Weight(b), 3
  {
    FaultlessRuns(b, [], p, caught, recover, other);
    var r := Eval(b, [], p, caught, recover);
    FaultlessEnds(id, r.late, r.pending, r.end, caught, recover, other);
  }

  lemma {:induction false} FaultlessEnds(id: nat, late: seq<Late>, p: Exc, end: End, caught: bool, recover: nat,
                                         other: nat)
    requires FaultlessLate(late) && !p.fault && (end.Exn? ==> !end.e.fault)
    ensures Harmless(Close(id, late, p, end, caught, recover))
    ensures Close(id, late, p, end, caught, recover) == Close(id, late, p, end, caught, other)
    decreases LateWeight(late), 2
  {
    if !end.Dead? && late != [] {
      LateWeightLast(late);
      var d, rest := late[|late| - 1], late[..|late| - 1];
      FaultlessCalls(d.n, d.body, p, caught, recover, other);
      var q := EvalCall(d.n, d.body, p, caught, recover);
      if q.end.Ok? {
        FaultlessEnds(id, rest, q.pending, end, caught, recover, other);
      } else if q.end.Exn? {
        FaultlessEnds(id, rest, q.pending, Exn(q.end.e, q.end.owed + [Slot(d.n)] + Owed(end)), caught, recover, other);
      }
    }
  }

  /** So to a program without faults a recovery point is not there. */
  lemma ContainTransparent(b: Cmd, k: Cmd, late: seq<Late>, p: Exc, caught: bool, recover: nat)
    requires Faultless(b) && FaultlessLate(late) && !p.fault
    ensures Eval(Try(Contain(b), k), late, p, caught, recover) == Eval(Try(b, k), late, p, caught, recover)
  {
    hide Eval, Harmless, Catch;
    FaultlessRuns(b, late, p, true, recover + 1, recover);
    UnfoldContain(b, late, p, true, recover);
    UnfoldTry(b, k, late, p, caught, recover);
    UnfoldTry(Contain(b), k, late, p, caught, recover);
    var r := Eval(b, late, p, true, recover);
    assert Harmless(r) ==> !r.pending.fault by { HarmlessPending(r); }
    if r.end.Exn? {
      var log := r.log + RunAll(r.end.owed);
      assert log + [] == log;
    }
  }

  lemma HarmlessPending(r: Result)
    requires Harmless(r)
    ensures !r.pending.fault
  {}

  /* -------------------------------------------------------- faults and handlers */

  /** A fault outside every recovery point ends the process; one inside leaves its code, past every
   *  catch, and is kept where the innermost recovery point is. */
  lemma FaultExact(n: nat, k: Cmd, late: seq<Late>, p: Exc, caught: bool, recover: nat)
    ensures Eval(Fault(n), late, p, caught, 0).end.Dead?
    ensures Eval(Contain(Try(Fault(n), k)), late, p, caught, recover)
         == Result([Contained(n)], late, Exc(n, true), Ok)
  {
    var e := Exc(n, true);
    assert Eval(Fault(n), late, p, true, recover + 1) == Result([], late, e, Exn(e, []));
    UnfoldTry(Fault(n), k, late, p, true, recover + 1);
    UnfoldContain(Try(Fault(n), k), late, p, caught, recover);
    assert Eval(Try(Fault(n), k), late, p, true, recover + 1) == Result([], late, e, Exn(e, []));
  }

  /** A handler runs only where its body leaves by an exception; it sees the one thrown last, and can
   *  send it on. */
  lemma HandlerExact(b: Cmd, k: Cmd, late: seq<Late>, p: Exc, recover: nat)
    ensures var r := Eval(b, late, p, true, recover);
      && (!r.end.Exn? ==> Eval(Try(b, k), late, p, true, recover) == r)
      && (r.end.Exn? && !r.pending.fault ==>
            Eval(Try(b, Rethrow), late, p, true, recover)
            == Result(r.log + RunAll(r.end.owed) + [Caught(r.pending)], r.late, r.pending, Exn(r.pending, [])))
      && (r.end.Exn? && r.pending.fault ==>
            Eval(Try(b, k), late, p, true, recover)
            == Result(r.log + RunAll(r.end.owed), r.late, r.pending, Exn(r.pending, [])))
  {
    hide Eval;
    UnfoldTry(b, k, late, p, true, recover);
    UnfoldTry(b, Rethrow, late, p, true, recover);
    var r := Eval(b, late, p, true, recover);
    if r.end.Exn? {
      var log := r.log + RunAll(r.end.owed);
      assert log + [] == log;
      if !r.pending.fault { RethrowIs(r.late, r.pending, recover); }
    }
  }

  lemma RethrowIs(late: seq<Late>, e: Exc, recover: nat)
    requires !e.fault
    ensures Catch(Rethrow, late, e, true, recover) == Result([Caught(e)], late, e, Exn(e, []))
  {}

  /* -------------------------------------------------------- cleanups */

  /** c inside the natives ns, the first outermost. */
  function Within(ns: seq<nat>, c: Cmd): Cmd {
    if ns == [] then c else Native(ns[0], Within(ns[1..], c))
  }

  function Pushes(ns: seq<nat>): seq<Event> { if ns == [] then [] else [Pushed(ns[0])] + Pushes(ns[1..]) }

  /** The natives' cleanups, the innermost first. */
  function Cleanups(ns: seq<nat>): seq<Event> { if ns == [] then [] else Cleanups(ns[1..]) + [Cleaned(ns[0])] }

  function Entries(ns: seq<nat>): seq<Entry> { if ns == [] then [] else Entries(ns[1..]) + [Mem(ns[0])] }

  lemma {:induction false} EntriesRun(ns: seq<nat>)
    ensures RunAll(Entries(ns)) == Cleanups(ns)
  {
    if ns != [] {
      EntriesRun(ns[1..]);
      RunAllLast(Entries(ns[1..]), Mem(ns[0]));
    }
  }

  lemma {:induction false} RunAllLast(owed: seq<Entry>, x: Entry)
    ensures RunAll(owed + [x]) == RunAll(owed) + [match x case Mem(n) => Cleaned(n) case Slot(n) => Released(n)]
  {
    if owed == [] {
      assert owed + [x] == [x];
    } else {
      assert (owed + [x])[1..] == owed[1..] + [x];
      RunAllLast(owed[1..], x);
    }
  }

  lemma {:induction false} ThrowWithin(ns: seq<nat>, e: Exc, late: seq<Late>, p: Exc, recover: nat)
    ensures Eval(Within(ns, Throw(e)), late, p, true, recover) == Result(Pushes(ns), late, e, Exn(e, Entries(ns)))
  {
    if ns != [] { ThrowWithin(ns[1..], e, late, p, recover); }
  }

  /** An exception through any natives runs their cleanups, the newest first, before it is caught. */
  lemma CleanupsNewestFirst(ns: seq<nat>, e: Exc, late: seq<Late>, p: Exc, recover: nat)
    requires !e.fault
    ensures Eval(Try(Within(ns, Throw(e)), Skip), late, p, true, recover).log
         == Pushes(ns) + Cleanups(ns) + [Caught(e)]
  {
    ThrowWithin(ns, e, late, p, recover);
    EntriesRun(ns);
  }
}
