/** What throws, defers, cleanups and handlers mean: an exception is a result, a frame's defers
 *  run when the frame ends, and a handler gets the exception thrown last.  This is the simple
 *  account that the runtime's handler stack (module UnwindMachine) is proved to follow. */
module UnwindMeaning {
  /** An exception, or a fault (an abort raised under a recovery point). */
  datatype Exc = Exc(id: nat, fault: bool)

  /** What running code does, its calls and branches unrolled. */
  datatype Cmd =
    | Skip
    | Emit(n: nat)
    | Throw(e: Exc)
    | Fault(n: nat)                       // vl_fault
    | Rethrow                             // of what the enclosing catch received
    | Defer(n: nat, body: Cmd)            // vl_defer of a closure that does `body`
    | Seq(first: Cmd, second: Cmd)
    | Native(n: nat, body: Cmd)           // a native holding resource n across `body`
    | Call(id: nat, body: Cmd)            // a function with a frame of its own
    | Try(body: Cmd, handler: Cmd)
    | Contain(body: Cmd)                  // vl_call_contained

  datatype Event =
    | Emitted(n: nat)
    | Deferred(n: nat) | Ran(n: nat) | Released(n: nat)
    | Entered(id: nat) | Popped(id: nat)
    | Pushed(n: nat) | Finished(n: nat) | Cleaned(n: nat)
    | Caught(e: Exc) | Contained(n: nat)

  /** A deferred closure. */
  datatype Late = Late(n: nat, body: Cmd)

  /** An unwind cleanup: a native's resource, or the slot of the deferred closure being run. */
  datatype Entry = Mem(n: nat) | Slot(n: nat)

  /** How code ends: normally; with an exception on its way, and the cleanups it leaves to the
   *  handler, newest first; or with the process. */
  datatype End = Ok | Exn(e: Exc, owed: seq<Entry>) | Dead

  /** `pending` is the exception thrown last, caught or not: what a handler is given. */
  datatype Result = Result(log: seq<Event>, late: seq<Late>, pending: Exc, end: End)

  function Weight(c: Cmd): nat {
    match c
    case Skip => 1
    case Emit(_) => 1
    case Throw(_) => 1
    case Fault(_) => 1
    case Rethrow => 1
    case Defer(_, b) => Weight(b) + 3
    case Seq(x, y) => Weight(x) + Weight(y) + 1
    case Native(_, b) => Weight(b) + 1
    case Call(_, b) => Weight(b) + 2
    case Try(b, k) => Weight(b) + Weight(k) + 1
    case Contain(b) => Weight(b) + 1
  }

  function LateWeight(late: seq<Late>): nat {
    if late == [] then 0 else Weight(late[0].body) + 2 + LateWeight(late[1..])
  }

  lemma {:induction false} LateWeightAppend(x: seq<Late>, y: seq<Late>)
    ensures LateWeight(x + y) == LateWeight(x) + LateWeight(y)
  {
    if x == [] {
      assert x + y == y;
    } else {
      assert (x + y)[1..] == x[1..] + y;
      LateWeightAppend(x[1..], y);
    }
  }

  lemma LateWeightLast(late: seq<Late>)
    requires late != []
    ensures LateWeight(late) == LateWeight(late[..|late| - 1]) + Weight(late[|late| - 1].body) + 2
  {
    assert late == late[..|late| - 1] + [late[|late| - 1]];
    LateWeightAppend(late[..|late| - 1], [late[|late| - 1]]);
  }

  lemma LateWeightOne(late: seq<Late>, d: Late)
    ensures LateWeight(late + [d]) == LateWeight(late) + Weight(d.body) + 2
  {
    LateWeightAppend(late, [d]);
  }

  /** c with the exception its catch received in place of Rethrow. */
  function Bind(c: Cmd, e: Exc): (r: Cmd)
    ensures Weight(r) == Weight(c)
  {
    match c
    case Rethrow => Throw(e)
    case Defer(n, b) => Defer(n, Bind(b, e))
    case Seq(x, y) => Seq(Bind(x, e), Bind(y, e))
    case Native(n, b) => Native(n, Bind(b, e))
    case Call(id, b) => Call(id, Bind(b, e))
    case Try(b, k) => Try(Bind(b, e), k)
    case Contain(b) => Contain(Bind(b, e))
    case _ => c
  }

  function Ran1(x: Entry): Event {
    match x case Mem(n) => Cleaned(n) case Slot(n) => Released(n)
  }

  /** Cleanups are run in the order given. */
  function RunAll(owed: seq<Entry>): seq<Event> {
    if owed == [] then [] else [Ran1(owed[0])] + RunAll(owed[1..])
  }

  /** c's effect in a frame with the deferred closures `late`, p thrown last, under `recover`
   *  recovery points, and with some handler installed or not. */
  function Eval(c: Cmd, late: seq<Late>, p: Exc, caught: bool, recover: nat): (r: Result)
    ensures LateWeight(r.late) <= LateWeight(late) + Weight(c)
    ensures !caught ==> !r.end.Exn?
    decreases Weight(c), 0
  {
    match c
    case Skip => Result([], late, p, Ok)
    case Rethrow => Result([], late, p, Ok)
    case Emit(n) => Result([Emitted(n)], late, p, Ok)
    case Throw(e) => Raise(e, late, p, caught)
    case Fault(n) => if recover > 0 then Raise(Exc(n, true), late, p, caught) else Result([], late, p, Dead)
    case Defer(n, b) =>
      LateWeightOne(late, Late(n, b));
      Result([Deferred(n)], late + [Late(n, b)], p, Ok)
    case Seq(x, y) =>
      var r := Eval(x, late, p, caught, recover);
      if !r.end.Ok? then r
      else var q := Eval(y, r.late, r.pending, caught, recover); q.(log := r.log + q.log)
    case Native(n, b) =>
      var r := Eval(b, late, p, caught, recover);
      Result([Pushed(n)] + r.log + (if r.end.Ok? then [Finished(n)] else []), r.late, r.pending,
             if r.end.Exn? then Exn(r.end.e, r.end.owed + [Mem(n)]) else r.end)
    case Call(id, b) =>
      EvalCall(id, b, p, caught, recover).(late := late)
    case Try(b, k) =>
      var r := Eval(b, late, p, true, recover);
      if !r.end.Exn? then r
      else
        var log := r.log + RunAll(r.end.owed);
        var q := Catch(k, r.late, r.pending, caught, recover);
        q.(log := log + q.log)
    case Contain(b) =>
      var r := Eval(b, late, p, true, recover + 1);
      if !r.end.Exn? then r
      else
        var log := r.log + RunAll(r.end.owed);
        var q := Recover(r.late, r.pending, caught);
        q.(log := log + q.log)
  }

  /** vl_throw: without a handler the process ends. */
  function Raise(e: Exc, late: seq<Late>, p: Exc, caught: bool): Result {
    if caught then Result([], late, e, Exn(e, [])) else Result([], late, p, Dead)
  }

  /** A catch: a fault goes straight on to the next handler. */
  function Catch(k: Cmd, late: seq<Late>, p: Exc, caught: bool, recover: nat): (r: Result)
    ensures LateWeight(r.late) <= LateWeight(late) + Weight(k)
    ensures !caught ==> !r.end.Exn?
    decreases Weight(k), 1
  {
    if p.fault then Raise(p, late, p, caught)
    else var q := Eval(Bind(k, p), late, p, caught, recover); q.(log := [Caught(p)] + q.log)
  }

  /** The recovery point keeps a fault, and sends anything else on. */
  function Recover(late: seq<Late>, p: Exc, caught: bool): Result {
    if p.fault then Result([Contained(p.id)], late, p, Ok) else Raise(p, late, p, caught)
  }

  /** A call: the body in a fresh frame, then the frame's end. */
  function EvalCall(id: nat, b: Cmd, p: Exc, caught: bool, recover: nat): (r: Result)
    ensures r.late == []
    ensures !caught ==> !r.end.Exn?
    decreases Weight(b), 3
  {
    var r := Eval(b, [], p, caught, recover);
    var q := Close(id, r.late, r.pending, r.end, caught, recover);
    q.(log := [Entered(id)] + r.log + q.log)
  }

  /** The end of a frame: every deferred closure runs, newest first, whatever became of the body
   *  and of the ones before it. */
  function Close(id: nat, late: seq<Late>, p: Exc, end: End, caught: bool, recover: nat): (r: Result)
    ensures r.late == []
    ensures !caught && !end.Exn? ==> !r.end.Exn?
    ensures !end.Ok? ==> !r.end.Ok?
    decreases LateWeight(late), 2
  {
    if end.Dead? then Result([], [], p, Dead)
    else if late == [] then Result([Popped(id)], [], p, end)
    else
      LateWeightLast(late);
      var d := late[|late| - 1];
      var q := EvalCall(d.n, d.body, p, caught, recover);
      var ran := [Ran(d.n)] + q.log;
      if q.end.Dead? then Result(ran, [], q.pending, Dead)
      else if q.end.Ok? then
        var r := Close(id, late[..|late| - 1], q.pending, end, caught, recover);
        r.(log := ran + [Released(d.n)] + r.log)
      else
        var owed := q.end.owed + [Slot(d.n)] + Owed(end);
        var r := Close(id, late[..|late| - 1], q.pending, Exn(q.end.e, owed), caught, recover);
        r.(log := ran + r.log)
  }

  function Owed(end: End): seq<Entry> {
    if end.Exn? then end.owed else []
  }

  /** run_defers: newest first, until one leaves with an exception. */
  function RunLate(late: seq<Late>, p: Exc, caught: bool, recover: nat): (r: Result)
    ensures LateWeight(r.late) <= LateWeight(late)
    ensures r.end.Ok? ==> r.late == []
    decreases |late|
  {
    if late == [] then Result([], [], p, Ok)
    else
      LateWeightLast(late);
      var d := late[|late| - 1];
      var q := EvalCall(d.n, d.body, p, caught, recover);
      var rest := late[..|late| - 1];
      var ran := [Ran(d.n)] + q.log;
      if q.end.Dead? then Result(ran, rest, q.pending, Dead)
      else if q.end.Exn? then Result(ran, rest, q.pending, Exn(q.end.e, q.end.owed + [Slot(d.n)]))
      else
        var r := RunLate(rest, q.pending, caught, recover);
        r.(log := ran + [Released(d.n)] + r.log)
  }

  lemma LateStep(late: seq<Late>, p: Exc, caught: bool, recover: nat)
    requires late != []
    ensures var d, rest := late[|late| - 1], late[..|late| - 1];
      var q := EvalCall(d.n, d.body, p, caught, recover);
      var r := RunLate(late, p, caught, recover);
      match q.end
      case Ok =>
        var z := RunLate(rest, q.pending, caught, recover);
        r == z.(log := ([Ran(d.n)] + q.log + [Released(d.n)]) + z.log)
      case Exn(e, owed) => r == Result([Ran(d.n)] + q.log, rest, q.pending, Exn(e, owed + [Slot(d.n)]))
      case Dead => r == Result([Ran(d.n)] + q.log, rest, q.pending, Dead)
  {
    hide EvalCall;
  }

  /** A frame's end is its defers up to the first that throws, and then the frame's end again. */
  lemma {:induction false} CloseSplit(id: nat, late: seq<Late>, p: Exc, end: End, caught: bool, recover: nat)
    requires !end.Dead?
    ensures var r := RunLate(late, p, caught, recover);
      var c := Close(id, late, p, end, caught, recover);
      match r.end
      case Ok => c == Result(r.log + [Popped(id)], [], r.pending, end)
      case Dead => c == Result(r.log, [], r.pending, Dead)
      case Exn(e, owed) =>
        var q := Close(id, r.late, r.pending, Exn(e, owed + Owed(end)), caught, recover);
        c == q.(log := r.log + q.log)
    decreases |late|
  {
    hide EvalCall;
    if late != [] {
      var d := late[|late| - 1];
      var q := EvalCall(d.n, d.body, p, caught, recover);
      var rest := late[..|late| - 1];
      if q.end.Ok? {
        CloseSplit(id, rest, q.pending, end, caught, recover);
        var r, c := RunLate(rest, q.pending, caught, recover), Close(id, rest, q.pending, end, caught, recover);
        var ran := [Ran(d.n)] + q.log + [Released(d.n)];
        if r.end.Ok? {
          assert ran + (r.log + [Popped(id)]) == (ran + r.log) + [Popped(id)];
        } else if r.end.Exn? {
          var z := Close(id, r.late, r.pending, Exn(r.end.e, r.end.owed + Owed(end)), caught, recover);
          assert ran + (r.log + z.log) == (ran + r.log) + z.log;
        }
      } else if q.end.Exn? {
        assert q.end.owed + [Slot(d.n)] + Owed(end) == (q.end.owed + [Slot(d.n)]) + Owed(end);
      }
    }
  }

  /** What was owed before a frame ends is owed after, and last. */
  lemma {:induction false} OwedLast(id: nat, late: seq<Late>, p: Exc, e: Exc, owed: seq<Entry>, more: seq<Entry>,
                                    caught: bool, recover: nat)
    ensures var r := Close(id, late, p, Exn(e, owed), caught, recover);
      Close(id, late, p, Exn(e, owed + more), caught, recover)
      == if r.end.Exn? then r.(end := Exn(r.end.e, r.end.owed + more)) else r
    decreases |late|
  {
    if late != [] {
      var d := late[|late| - 1];
      var q := EvalCall(d.n, d.body, p, caught, recover);
      var rest := late[..|late| - 1];
      if q.end.Ok? {
        OwedLast(id, rest, q.pending, e, owed, more, caught, recover);
      } else if q.end.Exn? {
        var o := q.end.owed + [Slot(d.n)] + owed;
        assert q.end.owed + [Slot(d.n)] + (owed + more) == o + more;
        OwedLast(id, rest, q.pending, q.end.e, o, more, caught, recover);
      }
    }
  }
}
