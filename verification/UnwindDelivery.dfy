/** Which exception a handler gets (runtime/src/err.c): the one on its way to it, exactly when no
 *  deferred closure has thrown and kept another since. */
module UnwindDelivery {
  import opened Options
  import opened UnwindMeaning

  /** The exception on its way is the one a handler would be given. */
  predicate Honest(r: Result) {
    r.end.Exn? ==> r.pending == r.end.e
  }

  /* -------------------------------------------------------- the closures of a frame */

  /** What each deferred closure does on its own, newest first, until one ends the process; each
   *  finds as the exception last thrown what the one before it left. */
  function Turns(late: seq<Late>, p: Exc, caught: bool, recover: nat): seq<Result>
    decreases |late|
  {
    if late == [] then []
    else
      var d := late[|late| - 1];
      var q := EvalCall(d.n, d.body, p, caught, recover);
      [q] + if q.end.Dead? then [] else Turns(late[..|late| - 1], q.pending, caught, recover)
  }

  predicate Died(turns: seq<Result>) {
    turns != [] && turns[|turns| - 1].end.Dead?
  }

  /** It threw something: it left with an exception, or what was thrown last is another now. */
  predicate Threw(q: Result, found: Exc) {
    q.end.Exn? || q.pending != found
  }

  /** The last closure to throw anything, or -1. */
  function LastThrower(turns: seq<Result>, p: Exc): (m: int)
    ensures -1 <= m < |turns|
  {
    if turns == [] then -1
    else
      var m := LastThrower(turns[1..], turns[0].pending);
      if m >= 0 then m + 1 else if Threw(turns[0], p) then 0 else -1
  }

  /** The exception on its way after the closures, when `way` was before them. */
  function OnWay(turns: seq<Result>, way: Option<Exc>): Option<Exc> {
    if turns == [] then way
    else OnWay(turns[1..], if turns[0].end.Exn? then Some(turns[0].end.e) else way)
  }

  function WayOf(end: End): Option<Exc> {
    if end.Exn? then Some(end.e) else None
  }

  /** Closure m threw last, and left with its exception as the one thrown last; or it kept what it
   *  threw to itself, and that is the very exception already on its way, or none is. */
  predicate Leaves(turns: seq<Result>, m: nat, way: Option<Exc>)
    requires m < |turns|
  {
    if turns[m].end.Exn? then Honest(turns[m])
    else OnWay(turns[..m], way) in {None, Some(turns[m].pending)}
  }

  function FinalPending(turns: seq<Result>, p: Exc): Exc {
    if turns == [] then p else FinalPending(turns[1..], turns[0].pending)
  }

  /** A frame's end, by its closures. */
  lemma {:induction false} CloseByTurns(id: nat, late: seq<Late>, p: Exc, end: End, caught: bool, recover: nat)
    requires !end.Dead?
    ensures var r := Close(id, late, p, end, caught, recover);
      var turns := Turns(late, p, caught, recover);
      r.end.Dead? == Died(turns)
      && (!Died(turns) ==> WayOf(r.end) == OnWay(turns, WayOf(end)) && r.pending == FinalPending(turns, p))
    decreases |late|
  {
    hide EvalCall;
    if late != [] {
      var d, rest := late[|late| - 1], late[..|late| - 1];
      var q := EvalCall(d.n, d.body, p, caught, recover);
      if !q.end.Dead? {
        var end' := if q.end.Ok? then end else Exn(q.end.e, q.end.owed + [Slot(d.n)] + Owed(end));
        CloseByTurns(id, rest, q.pending, end', caught, recover);
        var turns := Turns(rest, q.pending, caught, recover);
        assert ([q] + turns)[1..] == turns;
      }
    }
  }

  /** After the last closure that threw, nothing changes. */
  lemma {:induction false} QuietAfter(turns: seq<Result>, p: Exc, way: Option<Exc>)
    ensures var m := LastThrower(turns, p);
      OnWay(turns, way) == OnWay(turns[..m + 1], way) && FinalPending(turns, p) == if m < 0 then p else turns[m].pending
    decreases |turns|
  {
    if turns != [] {
      var way' := if turns[0].end.Exn? then Some(turns[0].end.e) else way;
      QuietAfter(turns[1..], turns[0].pending, way');
      var m := LastThrower(turns, p);
      if m >= 0 { assert turns[..m + 1][1..] == turns[1..][..m]; }
    }
  }

  lemma {:induction false} OnWayLast(turns: seq<Result>, way: Option<Exc>, q: Result)
    ensures OnWay(turns + [q], way) == if q.end.Exn? then Some(q.end.e) else OnWay(turns, way)
  {
    if turns == [] {
      assert [q][1..] == [];
    } else {
      assert (turns + [q])[1..] == turns[1..] + [q];
      OnWayLast(turns[1..], if turns[0].end.Exn? then Some(turns[0].end.e) else way, q);
    }
  }

  /** The end of a frame delivers the exception on its way exactly when: the process ended; or no
   *  deferred closure threw anything and it was so before; or the last one to throw anything left
   *  with what it threw, or threw what was on its way already. */
  lemma CloseHonest(id: nat, late: seq<Late>, p: Exc, end: End, caught: bool, recover: nat)
    requires !end.Dead?
    ensures var turns := Turns(late, p, caught, recover);
      var m := LastThrower(turns, p);
      Honest(Close(id, late, p, end, caught, recover))
      <==> Died(turns) || (if m < 0 then end.Exn? ==> p == end.e else Leaves(turns, m, WayOf(end)))
  {
    hide Close, Turns, LastThrower, OnWay, FinalPending;
    CloseByTurns(id, late, p, end, caught, recover);
    var turns := Turns(late, p, caught, recover);
    var m := LastThrower(turns, p);
    QuietAfter(turns, p, WayOf(end));
    if m >= 0 {
      assert turns[..m + 1] == turns[..m] + [turns[m]];
      OnWayLast(turns[..m], WayOf(end), turns[m]);
    } else {
      NoTurns(WayOf(end));
      assert turns[..m + 1] == [];
    }
  }

  lemma NoTurns(way: Option<Exc>)
    ensures OnWay([], way) == way
  {}

  /* -------------------------------------------------------- whole programs */

  /** The frames an exception passes on its way out of c all send it on unchanged. */
  predicate Direct(c: Cmd, late: seq<Late>, p: Exc, caught: bool, recover: nat)
    decreases Weight(c), 0
  {
    match c
    case Seq(x, y) =>
      var r := Eval(x, late, p, caught, recover);
      if r.end.Ok? then Direct(y, r.late, r.pending, caught, recover) else Direct(x, late, p, caught, recover)
    case Native(_, b) => Direct(b, late, p, caught, recover)
    case Call(_, b) => CallDirect(b, p, caught, recover)
    case Try(b, k) =>
      var r := Eval(b, late, p, true, recover);
      r.end.Exn? && !r.pending.fault ==> Direct(Bind(k, r.pending), r.late, r.pending, caught, recover)
    case _ => true
  }

  /** The body's exception gets there by itself when no closure threw anything; else it is for the
   *  last closure that did. */
  predicate CallDirect(b: Cmd, p: Exc, caught: bool, recover: nat)
    decreases Weight(b), 1
  {
    var r := Eval(b, [], p, caught, recover);
    var turns := Turns(r.late, r.pending, caught, recover);
    var m := LastThrower(turns, r.pending);
    r.end.Dead? || Died(turns) || if m < 0 then Direct(b, [], p, caught, recover) else Leaves(turns, m, WayOf(r.end))
  }

  /** What is on its way out of any program is what a handler would be given, exactly when every
   *  frame it passes sends it on unchanged. */
  lemma {:induction false} EvalHonest(c: Cmd, late: seq<Late>, p: Exc, caught: bool, recover: nat)
    ensures Honest(Eval(c, late, p, caught, recover)) <==> Direct(c, late, p, caught, recover)
    decreases Weight(c), 0
  {
    hide EvalCall, CallDirect;
    match c {
      case Seq(x, y) =>
        var r := Eval(x, late, p, caught, recover);
        if r.end.Ok? { EvalHonest(y, r.late, r.pending, caught, recover); } else { EvalHonest(x, late, p, caught,
              recover); }
      case Native(_, b) =>
        EvalHonest(b, late, p, caught, recover);
      case Call(id, b) =>
        CallHonest(id, b, p, caught, recover);
      case Try(b, k) =>
        var r := Eval(b, late, p, true, recover);
        if r.end.Exn? && !r.pending.fault { EvalHonest(Bind(k, r.pending), r.late, r.pending, caught, recover); }
      case _ =>
    }
  }

  lemma {:induction false} CallHonest(id: nat, b: Cmd, p: Exc, caught: bool, recover: nat)
    ensures Honest(EvalCall(id, b, p, caught, recover)) <==> CallDirect(b, p, caught, recover)
    decreases Weight(b), 1
  {
    hide Eval, Close, Direct, Turns, LastThrower, Leaves, Died;
    var r := Eval(b, [], p, caught, recover);
    EvalHonest(b, [], p, caught, recover);
    if r.end.Dead? {
      DeadClose(id, r.late, r.pending, caught, recover);
    } else {
      CloseHonest(id, r.late, r.pending, r.end, caught, recover);
    }
  }

  lemma DeadClose(id: nat, late: seq<Late>, p: Exc, caught: bool, recover: nat)
    ensures Close(id, late, p, Dead, caught, recover).end.Dead?
  {}

  /** So a catch is given the exception that reached it exactly when its way there was direct. */
  lemma HandlerGets(b: Cmd, k: Cmd, late: seq<Late>, p: Exc, caught: bool, recover: nat)
    requires Eval(b, late, p, true, recover).end.Exn?
    ensures var r := Eval(b, late, p, true, recover);
      var q := Catch(k, r.late, r.pending, caught, recover);
      Eval(Try(b, k), late, p, caught, recover) == q.(log := (r.log + RunAll(r.end.owed)) + q.log)
      && (r.pending == r.end.e <==> Direct(b, late, p, true, recover))
      && (Direct(b, late, p, true, recover) && !r.end.e.fault ==> Caught(r.end.e) in q.log)
  {
    hide Direct;
    EvalHonest(b, late, p, true, recover);
  }

  /* -------------------------------------------------------- programs whose defers catch nothing */

  /** c catches nothing, and neither does anything it defers. */
  predicate CatchFree(c: Cmd) {
    match c
    case Defer(_, b) => CatchFree(b)
    case Seq(x, y) => CatchFree(x) && CatchFree(y)
    case Native(_, b) => CatchFree(b)
    case Call(_, b) => CatchFree(b)
    case Try(_, _) => false
    case Contain(_) => false
    case _ => true
  }

  /** No deferred closure catches anything. */
  predicate DefersFree(c: Cmd) {
    match c
    case Defer(_, b) => CatchFree(b)
    case Seq(x, y) => DefersFree(x) && DefersFree(y)
    case Native(_, b) => DefersFree(b)
    case Call(_, b) => DefersFree(b)
    case Try(b, k) => DefersFree(b) && DefersFree(k)
    case Contain(b) => DefersFree(b)
    case _ => true
  }

  predicate LateFree(late: seq<Late>) {
    forall i | 0 <= i < |late| :: CatchFree(late[i].body)
  }

  lemma {:induction false} FreeIsDefersFree(c: Cmd)
    requires CatchFree(c)
    ensures DefersFree(c)
  {
    match c {
      case Seq(x, y) => FreeIsDefersFree(x); FreeIsDefersFree(y);
      case Native(_, b) => FreeIsDefersFree(b);
      case Call(_, b) => FreeIsDefersFree(b);
      case _ =>
    }
  }

  lemma {:induction false} BindFree(c: Cmd, e: Exc)
    ensures CatchFree(Bind(c, e)) == CatchFree(c) && DefersFree(Bind(c, e)) == DefersFree(c)
  {
    match c {
      case Defer(_, b) => BindFree(b, e);
      case Seq(x, y) => BindFree(x, e); BindFree(y, e);
      case Native(_, b) => BindFree(b, e);
      case Call(_, b) => BindFree(b, e);
      case Try(b, _) => BindFree(b, e);
      case Contain(b) => BindFree(b, e);
      case _ =>
    }
  }

  /** Code that catches nothing and comes to its normal end threw nothing. */
  predicate Steady(r: Result, p: Exc) {
    r.end.Ok? ==> r.pending == p
  }

  /** When no deferred closure catches anything, a handler gets the exception that reached it: the
   *  last one no defer of the frames on the way replaced. */
  lemma {:induction false} LatestWins(c: Cmd, late: seq<Late>, p: Exc, caught: bool, recover: nat)
    requires DefersFree(c) && LateFree(late)
    ensures var r := Eval(c, late, p, caught, recover);
      Honest(r) && LateFree(r.late) && (CatchFree(c) ==> Steady(r, p))
    decreases Weight(c), 0
  {
    match c {
      case Seq(x, y) =>
        LatestWins(x, late, p, caught, recover);
        var r := Eval(x, late, p, caught, recover);
        if r.end.Ok? { LatestWins(y, r.late, r.pending, caught, recover); }
      case Native(m, b) =>
        LatestWins(b, late, p, caught, recover);
      case Call(id, b) =>
        CallLatest(id, b, p, caught, recover);
      case Try(b, k) =>
        LatestWins(b, late, p, true, recover);
        var r := Eval(b, late, p, true, recover);
        if r.end.Exn? && !r.pending.fault {
          BindFree(k, r.pending);
          LatestWins(Bind(k, r.pending), r.late, r.pending, caught, recover);
        }
      case Contain(b) =>
        LatestWins(b, late, p, true, recover + 1);
      case _ =>
    }
  }

  /** So nothing is in the way. */
  lemma DefersFreeDirect(c: Cmd, late: seq<Late>, p: Exc, caught: bool, recover: nat)
    requires DefersFree(c) && LateFree(late)
    ensures Direct(c, late, p, caught, recover)
  {
    LatestWins(c, late, p, caught, recover);
    EvalHonest(c, late, p, caught, recover);
  }

  /** That is not needed: a defer that catches, and throws nothing, is in nobody's way. */
  lemma CatchingDefer(a: Exc, p: Exc)
    ensures !DefersFree(Seq(Defer(1, Try(Skip, Skip)), Throw(a)))
    ensures CallDirect(Seq(Defer(1, Try(Skip, Skip)), Throw(a)), p, true, 0)
  {
    var b, d := Seq(Defer(1, Try(Skip, Skip)), Throw(a)), Late(1, Try(Skip, Skip));
    assert [] + [d] == [d];
    assert Eval(Defer(1, Try(Skip, Skip)), [], p, true, 0) == Result([Deferred(1)], [d], p, Ok);
    assert Eval(b, [], p, true, 0).late == [d] && Eval(b, [], p, true, 0).pending == a;
    assert Eval(Skip, [], a, true, 0) == Result([], [], a, Ok);
    assert Eval(Try(Skip, Skip), [], a, true, 0) == Result([], [], a, Ok);
    assert EvalCall(1, Try(Skip, Skip), a, true, 0).pending == a && EvalCall(1, Try(Skip, Skip), a, true, 0).end == Ok;
    var q := EvalCall(1, Try(Skip, Skip), a, true, 0);
    assert [d][..0] == [] && Turns([], a, true, 0) == [];
    assert Turns([d], a, true, 0) == [q];
    assert [q][1..] == [] && LastThrower([], a) == -1;
    assert LastThrower([q], a) == -1;
    assert Direct(Throw(a), [d], p, true, 0);
  }

  lemma {:induction false} CallLatest(id: nat, b: Cmd, p: Exc, caught: bool, recover: nat)
    requires DefersFree(b)
    ensures var r := EvalCall(id, b, p, caught, recover);
      Honest(r) && (CatchFree(b) ==> Steady(r, p))
    decreases Weight(b), 3
  {
    LatestWins(b, [], p, caught, recover);
    var r := Eval(b, [], p, caught, recover);
    CloseLatest(id, r.late, r.pending, r.end, caught, recover);
  }

  lemma {:induction false} CloseLatest(id: nat, late: seq<Late>, p: Exc, end: End, caught: bool, recover: nat)
    requires LateFree(late) && (end.Exn? ==> end.e == p)
    ensures var r := Close(id, late, p, end, caught, recover);
      Honest(r) && Steady(r, p)
    decreases LateWeight(late), 2
  {
    if !end.Dead? && late != [] {
      LateWeightLast(late);
      var d, rest := late[|late| - 1], late[..|late| - 1];
      FreeIsDefersFree(d.body);
      CallLatest(d.n, d.body, p, caught, recover);
      var q := EvalCall(d.n, d.body, p, caught, recover);
      if q.end.Ok? {
        CloseLatest(id, rest, q.pending, end, caught, recover);
      } else if q.end.Exn? {
        CloseLatest(id, rest, q.pending, Exn(q.end.e, q.end.owed + [Slot(d.n)] + Owed(end)), caught, recover);
      }
    }
  }

  /** A function that throws a, with a defer that throws b and catches it itself. */
  function Overtaken(a: Exc, b: Exc): Cmd {
    Call(0, Seq(Defer(1, Shield(b)), Throw(a)))
  }

  function Shield(b: Exc): Cmd {
    Try(Throw(b), Skip)
  }

  lemma ShieldRuns(a: Exc, b: Exc)
    requires !b.fault
    ensures EvalCall(1, Shield(b), a, true, 0) == Result([Entered(1), Caught(b), Popped(1)], [], b, Ok)
  {
    assert Eval(Throw(b), [], a, true, 0) == Result([], [], b, Exn(b, []));
    assert Bind(Skip, b) == Skip;
    assert Catch(Skip, [], b, true, 0) == Result([Caught(b)], [], b, Ok);
    assert Eval(Shield(b), [], a, true, 0) == Result([Caught(b)], [], b, Ok);
  }

  lemma ShieldedClose(a: Exc, b: Exc)
    requires !b.fault
    ensures Close(0, [Late(1, Shield(b))], a, Exn(a, []), true, 0)
         == Result([Ran(1), Entered(1), Caught(b), Popped(1), Released(1), Popped(0)], [], b, Exn(a, []))
  {
    hide EvalCall;
    ShieldRuns(a, b);
    assert [Late(1, Shield(b))][..0] == [];
    assert Close(0, [], b, Exn(a, []), true, 0) == Result([Popped(0)], [], b, Exn(a, []));
  }

  /** When a defer catches something, the condition is needed: a is on its way, but the handler is
   *  given b, which the defer threw and caught.  With a a fault and b not, a catch receives b
   *  where it should have been passed over. */
  lemma DeferOvertakes(a: Exc, b: Exc, p: Exc)
    requires !b.fault
    ensures Eval(Overtaken(a, b), [], p, true, 0).end == Exn(a, [])
    ensures a != b ==> !Direct(Overtaken(a, b), [], p, true, 0)
    ensures Eval(Try(Overtaken(a, b), Skip), [], p, true, 0)
         == Result([Entered(0), Deferred(1), Ran(1), Entered(1), Caught(b), Popped(1), Released(1), Popped(0),
                    Caught(b)], [], b, Ok)
  {
    hide Close, Direct;
    ShieldedClose(a, b);
    var late := [Late(1, Shield(b))];
    assert [] + late == late;
    assert Eval(Defer(1, Shield(b)), [], p, true, 0) == Result([Deferred(1)], late, p, Ok);
    assert Eval(Seq(Defer(1, Shield(b)), Throw(a)), [], p, true, 0) == Result([Deferred(1)], late, a, Exn(a, []));
    assert Bind(Skip, b) == Skip;
    EvalHonest(Overtaken(a, b), [], p, true, 0);
  }
}
