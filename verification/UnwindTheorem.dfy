/** What unwinding guarantees, for every program: nothing is run twice or forgotten, and faults
 *  are not caught. */
module UnwindTheorem {
  import opened UnwindMeaning

  function Tally(log: seq<Event>, x: Event): int {
    if log == [] then 0 else (if log[0] == x then 1 else 0) + Tally(log[1..], x)
  }

  function Slots(owed: seq<Entry>, x: Entry): int {
    if owed == [] then 0 else (if owed[0] == x then 1 else 0) + Slots(owed[1..], x)
  }

  function Waiting(late: seq<Late>, n: nat): int {
    if late == [] then 0 else (if late[0].n == n then 1 else 0) + Waiting(late[1..], n)
  }

  lemma {:induction false} TallyAppend(x: seq<Event>, y: seq<Event>, e: Event)
    ensures Tally(x + y, e) == Tally(x, e) + Tally(y, e)
  {
    if x == [] {
      assert x + y == y;
    } else {
      assert (x + y)[1..] == x[1..] + y;
      TallyAppend(x[1..], y, e);
    }
  }

  lemma {:induction false} SlotsAppend(x: seq<Entry>, y: seq<Entry>, e: Entry)
    ensures Slots(x + y, e) == Slots(x, e) + Slots(y, e)
  {
    if x == [] {
      assert x + y == y;
    } else {
      assert (x + y)[1..] == x[1..] + y;
      SlotsAppend(x[1..], y, e);
    }
  }

  lemma {:induction false} WaitingAppend(x: seq<Late>, y: seq<Late>, n: nat)
    ensures Waiting(x + y, n) == Waiting(x, n) + Waiting(y, n)
  {
    if x == [] {
      assert x + y == y;
    } else {
      assert (x + y)[1..] == x[1..] + y;
      WaitingAppend(x[1..], y, n);
    }
  }

  lemma {:induction false} RunAllTally(owed: seq<Entry>, n: nat)
    ensures Tally(RunAll(owed), Released(n)) == Slots(owed, Slot(n))
    ensures Tally(RunAll(owed), Cleaned(n)) == Slots(owed, Mem(n))
    ensures Tally(RunAll(owed), Deferred(n)) == 0 && Tally(RunAll(owed), Ran(n)) == 0
    ensures Tally(RunAll(owed), Entered(n)) == 0 && Tally(RunAll(owed), Popped(n)) == 0
    ensures Tally(RunAll(owed), Pushed(n)) == 0 && Tally(RunAll(owed), Finished(n)) == 0
  {
    if owed != [] {
      RunAllTally(owed[1..], n);
      assert RunAll(owed)[1..] == RunAll(owed[1..]);
    }
  }

  /** The events that come in pairs, for one name n; a log's balance of each. */
  datatype Sums = Sums(late: int, slots: int, mems: int, frames: int)

  function Balance(log: seq<Event>, n: nat): Sums {
    Sums(Tally(log, Deferred(n)) - Tally(log, Ran(n)),
         Tally(log, Ran(n)) - Tally(log, Released(n)),
         Tally(log, Pushed(n)) - Tally(log, Finished(n)) - Tally(log, Cleaned(n)),
         Tally(log, Entered(n)) - Tally(log, Popped(n)))
  }

  function Plus(x: Sums, y: Sums): Sums {
    Sums(x.late + y.late, x.slots + y.slots, x.mems + y.mems, x.frames + y.frames)
  }

  lemma BalanceAppend(x: seq<Event>, y: seq<Event>, n: nat)
    ensures Balance(x + y, n) == Plus(Balance(x, n), Balance(y, n))
  {
    hide Tally;
    TallyAppend(x, y, Deferred(n));
    TallyAppend(x, y, Ran(n));
    TallyAppend(x, y, Released(n));
    TallyAppend(x, y, Pushed(n));
    TallyAppend(x, y, Finished(n));
    TallyAppend(x, y, Cleaned(n));
    TallyAppend(x, y, Entered(n));
    TallyAppend(x, y, Popped(n));
  }

  lemma BalanceOne(x: Event, n: nat)
    ensures Balance([x], n) == match x
      case Deferred(m) => Sums(if m == n then 1 else 0, 0, 0, 0)
      case Ran(m) => Sums(if m == n then -1 else 0, if m == n then 1 else 0, 0, 0)
      case Released(m) => Sums(0, if m == n then -1 else 0, 0, 0)
      case Pushed(m) => Sums(0, 0, if m == n then 1 else 0, 0)
      case Finished(m) => Sums(0, 0, if m == n then -1 else 0, 0)
      case Cleaned(m) => Sums(0, 0, if m == n then -1 else 0, 0)
      case Entered(m) => Sums(0, 0, 0, if m == n then 1 else 0)
      case Popped(m) => Sums(0, 0, 0, if m == n then -1 else 0)
      case _ => Sums(0, 0, 0, 0)
  {
    assert forall e :: Tally([x], e) == if x == e then 1 else 0;
  }

  lemma BalanceNone(n: nat)
    ensures Balance([], n) == Sums(0, 0, 0, 0)
  {}

  lemma BalanceRunAll(owed: seq<Entry>, n: nat)
    ensures Balance(RunAll(owed), n) == Sums(0, -Slots(owed, Slot(n)), -Slots(owed, Mem(n)), 0)
  {
    RunAllTally(owed, n);
  }

  /** Every closure deferred is waiting or has run; every one that ran is released or owed to the
   *  handler; every resource is given back or owed; every frame entered is popped. */
  predicate Fair(before: seq<Late>, r: Result, n: nat) {
    !r.end.Dead? ==>
      Balance(r.log, n) == Sums(Waiting(r.late, n) - Waiting(before, n), OwedSlots(r.end, n), OwedMems(r.end, n), 0)
  }

  function OwedSlots(end: End, n: nat): int {
    Slots(Owed(end), Slot(n))
  }

  function OwedMems(end: End, n: nat): int {
    Slots(Owed(end), Mem(n))
  }

  lemma OwedNone(n: nat)
    ensures OwedSlots(Ok, n) == 0 && OwedMems(Ok, n) == 0
  {}

  lemma OwedMore(e: Exc, owed: seq<Entry>, f: Exc, x: Entry, more: seq<Entry>, n: nat)
    ensures OwedSlots(Exn(e, owed + [x] + more), n)
         == OwedSlots(Exn(f, owed), n) + (if x == Slot(n) then 1 else 0) + Slots(more, Slot(n))
    ensures OwedMems(Exn(e, owed + [x] + more), n)
         == OwedMems(Exn(f, owed), n) + (if x == Mem(n) then 1 else 0) + Slots(more, Mem(n))
  {
    SlotsAppend(owed + [x], more, Slot(n));
    SlotsAppend(owed, [x], Slot(n));
    SlotsAppend(owed + [x], more, Mem(n));
    SlotsAppend(owed, [x], Mem(n));
  }

  lemma FairThen(a: seq<Late>, r: Result, q: Result, n: nat)
    requires Fair(a, r, n) && r.end.Ok? && Fair(r.late, q, n)
    ensures Fair(a, q.(log := r.log + q.log), n)
  {
    hide Balance, Tally, Slots, Waiting, OwedSlots, OwedMems;
    OwedNone(n);
    BalanceAppend(r.log, q.log, n);
  }

  lemma FairLanded(a: seq<Late>, r: Result, n: nat)
    requires Fair(a, r, n) && r.end.Exn?
    ensures Fair(a, Result(r.log + RunAll(r.end.owed), r.late, r.pending, Ok), n)
  {
    hide Balance, Tally, Slots, Waiting;
    OwedNone(n);
    BalanceAppend(r.log, RunAll(r.end.owed), n);
    BalanceRunAll(r.end.owed, n);
  }

  lemma FairRaise(e: Exc, late: seq<Late>, p: Exc, caught: bool, n: nat)
    ensures Fair(late, Raise(e, late, p, caught), n)
  {
    BalanceNone(n);
  }

  lemma FairSimple(c: Cmd, late: seq<Late>, p: Exc, caught: bool, recover: nat, n: nat)
    requires c.Skip? || c.Rethrow? || c.Emit? || c.Throw? || c.Fault? || c.Defer?
    ensures Fair(late, Eval(c, late, p, caught, recover), n)
  {
    hide Balance, Tally;
    BalanceNone(n);
    if c.Emit? { BalanceOne(Emitted(c.n), n); }
    if c.Defer? {
      BalanceOne(Deferred(c.n), n);
      WaitingAppend(late, [Late(c.n, c.body)], n);
    }
  }

  lemma FairNative(late: seq<Late>, r: Result, m: nat, n: nat)
    requires Fair(late, r, n)
    ensures Fair(late, Result([Pushed(m)] + r.log + (if r.end.Ok? then [Finished(m)] else []), r.late, r.pending,
                              if r.end.Exn? then Exn(r.end.e, r.end.owed + [Mem(m)]) else r.end), n)
  {
    hide Balance, Tally, Waiting, OwedSlots, OwedMems;
    var tail := if r.end.Ok? then [Finished(m)] else [];
    BalanceAppend([Pushed(m)] + r.log, tail, n);
    BalanceAppend([Pushed(m)], r.log, n);
    BalanceOne(Pushed(m), n);
    BalanceOne(Finished(m), n);
    BalanceNone(n);
    OwedNone(n);
    if r.end.Exn? {
      OwedMore(r.end.e, r.end.owed, r.end.e, Mem(m), [], n);
      assert r.end.owed + [Mem(m)] + [] == r.end.owed + [Mem(m)];
    }
  }

  /** Conservation, in every program, whichever of its parts throw: to the end of a command. */
  lemma {:induction false} EvalFair(c: Cmd, late: seq<Late>, p: Exc, caught: bool, recover: nat, n: nat)
    ensures Fair(late, Eval(c, late, p, caught, recover), n)
    decreases Weight(c), 0
  {
    hide Balance, Fair, Tally, Slots, Waiting;
    match c {
      case Seq(x, y) =>
        EvalFair(x, late, p, caught, recover, n);
        var r := Eval(x, late, p, caught, recover);
        if r.end.Ok? {
          EvalFair(y, r.late, r.pending, caught, recover, n);
          FairThen(late, r, Eval(y, r.late, r.pending, caught, recover), n);
        }
      case Native(m, b) =>
        EvalFair(b, late, p, caught, recover, n);
        FairNative(late, Eval(b, late, p, caught, recover), m, n);
      case Call(id, b) =>
        CallFair(id, b, p, caught, recover, n);
        FairCall(late, EvalCall(id, b, p, caught, recover), n);
      case Try(b, k) =>
        EvalFair(b, late, p, true, recover, n);
        var r := Eval(b, late, p, true, recover);
        if r.end.Exn? {
          FairLanded(late, r, n);
          CatchFair(k, r.late, r.pending, caught, recover, n);
          FairThen(late, Result(r.log + RunAll(r.end.owed), r.late, r.pending, Ok),
                   Catch(k, r.late, r.pending, caught, recover), n);
        }
      case Contain(b) =>
        EvalFair(b, late, p, true, recover + 1, n);
        var r := Eval(b, late, p, true, recover + 1);
        if r.end.Exn? {
          FairLanded(late, r, n);
          RecoverFair(r.late, r.pending, caught, n);
          FairThen(late, Result(r.log + RunAll(r.end.owed), r.late, r.pending, Ok), Recover(r.late, r.pending, caught),
                   n);
        }
      case _ =>
        FairSimple(c, late, p, caught, recover, n);
    }
  }

  lemma {:induction false} CatchFair(k: Cmd, late: seq<Late>, p: Exc, caught: bool, recover: nat, n: nat)
    ensures Fair(late, Catch(k, late, p, caught, recover), n)
    decreases Weight(k), 1
  {
    if p.fault {
      FairRaise(p, late, p, caught, n);
    } else {
      EvalFair(Bind(k, p), late, p, caught, recover, n);
      hide Balance, Tally, Slots, Waiting;
      BalanceOne(Caught(p), n);
      FairThen(late, Result([Caught(p)], late, p, Ok), Eval(Bind(k, p), late, p, caught, recover), n);
    }
  }

  lemma RecoverFair(late: seq<Late>, p: Exc, caught: bool, n: nat)
    ensures Fair(late, Recover(late, p, caught), n)
  {
    BalanceNone(n);
    BalanceOne(Contained(p.id), n);
  }

  lemma FairCall(late: seq<Late>, r: Result, n: nat)
    requires Fair([], r, n) && r.late == []
    ensures Fair(late, r.(late := late), n)
  {}

  /** A call, run to its end, leaves no closure waiting and no frame behind. */
  lemma {:induction false} CallFair(id: nat, b: Cmd, p: Exc, caught: bool, recover: nat, n: nat)
    ensures Fair([], EvalCall(id, b, p, caught, recover), n)
    decreases Weight(b), 3
  {
    hide Fair, Closing, Eval, Close;
    var r := Eval(b, [], p, caught, recover);
    EvalFair(b, [], p, caught, recover, n);
    CloseFair(id, r.late, r.pending, r.end, caught, recover, n);
    CloseDeadEnds(id, r.late, r.pending, r.end, caught, recover);
    CallSums(id, r, Close(id, r.late, r.pending, r.end, caught, recover), n);
  }

  lemma CallSums(id: nat, r: Result, q: Result, n: nat)
    requires Fair([], r, n) && Closing(id, r.late, r.end, q, n) && (r.end.Dead? ==> q.end.Dead?) && q.late == []
    ensures Fair([], q.(log := [Entered(id)] + r.log + q.log), n)
  {
    hide Balance, Tally, Slots, OwedSlots, OwedMems;
    BalanceAppend([Entered(id)] + r.log, q.log, n);
    BalanceAppend([Entered(id)], r.log, n);
    BalanceOne(Entered(id), n);
  }

  lemma CloseDeadEnds(id: nat, late: seq<Late>, p: Exc, end: End, caught: bool, recover: nat)
    ensures end.Dead? ==> Close(id, late, p, end, caught, recover).end.Dead?
  {}

  /** r is the end of a frame in which the closures `late` waited and `end` was the body's. */
  predicate Closing(id: nat, late: seq<Late>, end: End, r: Result, n: nat) {
    !r.end.Dead? ==>
      Balance(r.log, n) == Sums(-Waiting(late, n), OwedSlots(r.end, n) - OwedSlots(end, n),
                                OwedMems(r.end, n) - OwedMems(end, n), if id == n then -1 else 0)
  }

  /** At the end of a frame every closure still waiting runs; what was owed stays owed. */
  lemma {:induction false} CloseFair(id: nat, late: seq<Late>, p: Exc, end: End, caught: bool, recover: nat, n: nat)
    ensures Closing(id, late, end, Close(id, late, p, end, caught, recover), n)
    decreases LateWeight(late), 2
  {
    hide Balance, Fair, EvalCall, OwedSlots, OwedMems;
    if !end.Dead? {
      if late == [] {
        BalanceOne(Popped(id), n);
      } else {
        LateWeightLast(late);
        var d, rest := late[|late| - 1], late[..|late| - 1];
        CallFair(d.n, d.body, p, caught, recover, n);
        var q := EvalCall(d.n, d.body, p, caught, recover);
        if !q.end.Dead? {
          var end' := if q.end.Ok? then end else Exn(q.end.e, q.end.owed + [Slot(d.n)] + Owed(end));
          CloseFair(id, rest, q.pending, end', caught, recover, n);
          assert late == rest + [d];
          var r := Close(id, rest, q.pending, end', caught, recover);
          if q.end.Ok? { CloseOk(id, rest, d, end, q, r, n); } else { CloseExn(id, rest, d, end, q, r, n); }
        }
      }
    }
  }

  lemma WaitingLast(rest: seq<Late>, d: Late, n: nat)
    ensures Waiting(rest + [d], n) == Waiting(rest, n) + if d.n == n then 1 else 0
  {
    WaitingAppend(rest, [d], n);
  }

  lemma CloseOk(id: nat, rest: seq<Late>, d: Late, end: End, q: Result, r: Result, n: nat)
    requires Fair([], q, n) && q.late == [] && q.end.Ok? && Closing(id, rest, end, r, n)
    ensures Closing(id, rest + [d], end, r.(log := [Ran(d.n)] + q.log + [Released(d.n)] + r.log), n)
  {
    hide *;
    WaitingLast(rest, d, n);
    RanAndReleased(d.n, q.log, n);
    BalanceAppend([Ran(d.n)] + q.log + [Released(d.n)], r.log, n);
    EvenLog(q, n);
    ClosingOnward(id, rest, d, end, r, [Ran(d.n)] + q.log + [Released(d.n)], n);
  }

  /** A closure that ran to its normal end balances. */
  lemma EvenLog(q: Result, n: nat)
    requires Fair([], q, n) && q.late == [] && q.end.Ok?
    ensures Balance(q.log, n) == Sums(0, 0, 0, 0)
  {
    hide Balance;
    OwedNone(n);
  }

  lemma RanAndReleased(d: nat, log: seq<Event>, n: nat)
    ensures Balance(log, n) == Sums(0, 0, 0, 0) ==>
              Balance([Ran(d)] + log + [Released(d)], n) == Sums(if d == n then -1 else 0, 0, 0, 0)
  {
    hide Balance;
    BalanceAppend([Ran(d)] + log, [Released(d)], n);
    BalanceAppend([Ran(d)], log, n);
    BalanceOne(Ran(d), n);
    BalanceOne(Released(d), n);
  }

  lemma ClosingOnward(id: nat, rest: seq<Late>, d: Late, end: End, r: Result, log: seq<Event>, n: nat)
    requires Closing(id, rest, end, r, n) && Waiting(rest + [d], n) == Waiting(rest, n) + if d.n == n then 1 else 0
    requires Balance(log, n) == Sums(if d.n == n then -1 else 0, 0, 0, 0)
    requires Balance(log + r.log, n) == Plus(Balance(log, n), Balance(r.log, n))
    ensures Closing(id, rest + [d], end, r.(log := log + r.log), n)
  {
    hide Balance, Waiting, OwedSlots, OwedMems;
  }

  lemma CloseExn(id: nat, rest: seq<Late>, d: Late, end: End, q: Result, r: Result, n: nat)
    requires Fair([], q, n) && q.late == [] && q.end.Exn? && !end.Dead?
    requires Closing(id, rest, Exn(q.end.e, q.end.owed + [Slot(d.n)] + Owed(end)), r, n)
    ensures Closing(id, rest + [d], end, r.(log := [Ran(d.n)] + q.log + r.log), n)
  {
    hide Balance, Tally, Slots, Waiting;
    WaitingLast(rest, d, n);
    OwedMore(q.end.e, q.end.owed, q.end.e, Slot(d.n), Owed(end), n);
    BalanceAppend([Ran(d.n)] + q.log, r.log, n);
    BalanceAppend([Ran(d.n)], q.log, n);
    BalanceOne(Ran(d.n), n);
  }

  /** A whole call, however it ends: as many closures ran as were deferred, every frame entered was
   *  popped, and what was run or pushed was released or given back, or is owed to the handler. */
  lemma CallRunsAll(id: nat, b: Cmd, p: Exc, caught: bool, recover: nat, n: nat)
    ensures var r := EvalCall(id, b, p, caught, recover);
      !r.end.Dead? ==>
        Tally(r.log, Ran(n)) == Tally(r.log, Deferred(n))
        && Tally(r.log, Popped(n)) == Tally(r.log, Entered(n))
        && Tally(r.log, Released(n)) + Slots(Owed(r.end), Slot(n)) == Tally(r.log, Ran(n))
        && Tally(r.log, Finished(n)) + Tally(r.log, Cleaned(n)) + Slots(Owed(r.end), Mem(n)) == Tally(r.log, Pushed(n))
  {
    CallFair(id, b, p, caught, recover, n);
  }

  /* -------------------------------------------------------- faults */

  /** No catch has received a fault. */
  ghost predicate NoFaults(log: seq<Event>) {
    forall i | 0 <= i < |log| :: log[i].Caught? ==> !log[i].e.fault
  }

  lemma {:induction false} RunAllNoFaults(owed: seq<Entry>)
    ensures NoFaults(RunAll(owed))
  {
    if owed != [] { RunAllNoFaults(owed[1..]); }
  }

  lemma {:induction false} FaultsUncaught(c: Cmd, late: seq<Late>, p: Exc, caught: bool, recover: nat)
    ensures NoFaults(Eval(c, late, p, caught, recover).log)
    decreases Weight(c), 0
  {
    match c {
      case Seq(x, y) =>
        FaultsUncaught(x, late, p, caught, recover);
        var r := Eval(x, late, p, caught, recover);
        if r.end.Ok? { FaultsUncaught(y, r.late, r.pending, caught, recover); }
      case Native(m, b) =>
        FaultsUncaught(b, late, p, caught, recover);
      case Call(id, b) =>
        CallFaultsUncaught(id, b, p, caught, recover);
      case Try(b, k) =>
        FaultsUncaught(b, late, p, true, recover);
        var r := Eval(b, late, p, true, recover);
        if r.end.Exn? {
          RunAllNoFaults(r.end.owed);
          if !r.pending.fault { FaultsUncaught(Bind(k, r.pending), r.late, r.pending, caught, recover); }
        }
      case Contain(b) =>
        FaultsUncaught(b, late, p, true, recover + 1);
        var r := Eval(b, late, p, true, recover + 1);
        if r.end.Exn? { RunAllNoFaults(r.end.owed); }
      case _ =>
    }
  }

  lemma {:induction false} CallFaultsUncaught(id: nat, b: Cmd, p: Exc, caught: bool, recover: nat)
    ensures NoFaults(EvalCall(id, b, p, caught, recover).log)
    decreases Weight(b), 3
  {
    FaultsUncaught(b, [], p, caught, recover);
    var r := Eval(b, [], p, caught, recover);
    CloseFaultsUncaught(id, r.late, r.pending, r.end, caught, recover);
  }

  lemma {:induction false} CloseFaultsUncaught(id: nat, late: seq<Late>, p: Exc, end: End, caught: bool, recover: nat)
    ensures NoFaults(Close(id, late, p, end, caught, recover).log)
    decreases LateWeight(late), 2
  {
    if !end.Dead? && late != [] {
      LateWeightLast(late);
      var d, rest := late[|late| - 1], late[..|late| - 1];
      CallFaultsUncaught(d.n, d.body, p, caught, recover);
      var q := EvalCall(d.n, d.body, p, caught, recover);
      if q.end.Ok? {
        CloseFaultsUncaught(id, rest, q.pending, end, caught, recover);
      } else if q.end.Exn? {
        CloseFaultsUncaught(id, rest, q.pending, Exn(q.end.e, q.end.owed + [Slot(d.n)] + Owed(end)), caught, recover);
      }
    }
  }
}
