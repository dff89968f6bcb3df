/** The order in which defers run, read off what happened alone: the last one deferred in the frame
 *  that was entered last comes first, and no frame is left with one waiting. */
module UnwindOrder {
  import opened Options
  import opened UnwindMeaning

  /** A frame that is open: its number, and its closures that wait, the last one last. */
  datatype Open = Open(id: nat, waiting: seq<nat>)

  /** The open frames after an event, the innermost last; nothing where the order is broken. */
  function After(open: seq<Open>, e: Event): Option<seq<Open>> {
    if e.Entered? then Some(open + [Open(e.id, [])])
    else if !e.Deferred? && !e.Ran? && !e.Popped? then Some(open)
    else if open == [] then None
    else
      var below, top := open[..|open| - 1], open[|open| - 1];
      match e
      case Deferred(n) => Some(below + [Open(top.id, top.waiting + [n])])
      case Ran(n) =>
        if top.waiting == [] || top.waiting[|top.waiting| - 1] != n then None
        else Some(below + [Open(top.id, top.waiting[..|top.waiting| - 1])])
      case Popped(id) => if top == Open(id, []) then Some(below) else None
      case _ => Some(open)
  }

  /** The open frames after a log. */
  function Follow(open: seq<Open>, log: seq<Event>): Option<seq<Open>>
    decreases |log|
  {
    if log == [] then Some(open)
    else
      match After(open, log[0])
      case None => None
      case Some(next) => Follow(next, log[1..])
  }

  lemma {:induction false} FollowAppend(open: seq<Open>, x: seq<Event>, y: seq<Event>)
    ensures Follow(open, x + y) == if Follow(open, x).None? then None else Follow(Follow(open, x).value, y)
    decreases |x|
  {
    if x == [] {
      assert x + y == y;
    } else {
      assert (x + y)[0] == x[0] && (x + y)[1..] == x[1..] + y;
      var next := After(open, x[0]);
      if next.Some? { FollowAppend(next.value, x[1..], y); }
    }
  }

  lemma FollowOne(open: seq<Open>, e: Event)
    ensures Follow(open, [e]) == After(open, e)
  {
    assert [e][1..] == [];
  }

  lemma {:induction false} RunAllFollows(open: seq<Open>, owed: seq<Entry>)
    ensures Follow(open, RunAll(owed)) == Some(open)
  {
    if owed != [] {
      assert RunAll(owed)[1..] == RunAll(owed[1..]);
      RunAllFollows(open, owed[1..]);
    }
  }

  function Names(late: seq<Late>): (ns: seq<nat>)
    ensures |ns| == |late|
  {
    seq(|late|, i requires 0 <= i < |late| => late[i].n)
  }

  /** The log is followed from `open`; to `end`, unless the process ends. */
  predicate Orderly(open: seq<Open>, r: Result, end: seq<Open>) {
    Follow(open, r.log).Some? && (!r.end.Dead? ==> Follow(open, r.log) == Some(end))
  }

  lemma OrderlyThen(open: seq<Open>, log: seq<Event>, mid: seq<Open>, r: Result, end: seq<Open>)
    requires Follow(open, log) == Some(mid) && Orderly(mid, r, end)
    ensures Orderly(open, r.(log := log + r.log), end)
  {
    FollowAppend(open, log, r.log);
  }

  /** What runs in a frame defers there, and runs what it deferred when a frame of its own ends. */
  lemma {:induction false} EvalOrderly(c: Cmd, below: seq<Open>, id: nat, late: seq<Late>, p: Exc, caught: bool,
                                       recover: nat)
    ensures var r := Eval(c, late, p, caught, recover);
      Orderly(below + [Open(id, Names(late))], r, below + [Open(id, Names(r.late))])
    decreases Weight(c), 0
  {
    var open := below + [Open(id, Names(late))];
    match c {
      case Emit(n) => FollowOne(open, Emitted(n));
      case Defer(n, b) => DeferOrderly(below, id, late, Late(n, b), p);
      case Seq(x, y) =>
        EvalOrderly(x, below, id, late, p, caught, recover);
        var r := Eval(x, late, p, caught, recover);
        if r.end.Ok? {
          EvalOrderly(y, below, id, r.late, r.pending, caught, recover);
          var q := Eval(y, r.late, r.pending, caught, recover);
          OrderlyThen(open, r.log, below + [Open(id, Names(r.late))], q, below + [Open(id, Names(q.late))]);
        }
      case Native(n, b) =>
        EvalOrderly(b, below, id, late, p, caught, recover);
        NativeOrderly(open, Eval(b, late, p, caught, recover), below, id, n);
      case Call(f, b) => CallOrderly(f, b, open, p, caught, recover);
      case Try(b, k) =>
        EvalOrderly(b, below, id, late, p, true, recover);
        var r := Eval(b, late, p, true, recover);
        if r.end.Exn? {
          CatchOrderly(k, below, id, r.late, r.pending, caught, recover);
          AfterCleanups(open, r, below, id, Catch(k, r.late, r.pending, caught, recover));
        }
      case Contain(b) =>
        EvalOrderly(b, below, id, late, p, true, recover + 1);
        var r := Eval(b, late, p, true, recover + 1);
        if r.end.Exn? {
          RecoverOrderly(below, id, r.late, r.pending, caught);
          AfterCleanups(open, r, below, id, Recover(r.late, r.pending, caught));
        }
      case _ =>
    }
  }

  lemma DeferOrderly(below: seq<Open>, id: nat, late: seq<Late>, d: Late, p: Exc)
    ensures Orderly(below + [Open(id, Names(late))], Result([Deferred(d.n)], late + [d], p, Ok),
                    below + [Open(id, Names(late + [d]))])
  {
    var open := below + [Open(id, Names(late))];
    assert open[..|open| - 1] == below && Names(late + [d]) == Names(late) + [d.n];
    FollowOne(open, Deferred(d.n));
  }

  lemma NativeOrderly(open: seq<Open>, r: Result, below: seq<Open>, id: nat, n: nat)
    requires Orderly(open, r, below + [Open(id, Names(r.late))])
    ensures var log := [Pushed(n)] + r.log + if r.end.Ok? then [Finished(n)] else [];
      Follow(open, log).Some? && (!r.end.Dead? ==> Follow(open, log) == Some(below + [Open(id, Names(r.late))]))
  {
    FollowOne(open, Pushed(n));
    FollowAppend(open, [Pushed(n)], r.log);
    var last := if r.end.Ok? then [Finished(n)] else [];
    FollowAppend(open, [Pushed(n)] + r.log, last);
    FollowOne(below + [Open(id, Names(r.late))], Finished(n));
  }

  lemma AfterCleanups(open: seq<Open>, r: Result, below: seq<Open>, id: nat, q: Result)
    requires r.end.Exn? && Orderly(open, r, below + [Open(id, Names(r.late))])
    requires Orderly(below + [Open(id, Names(r.late))], q, below + [Open(id, Names(q.late))])
    ensures Orderly(open, q.(log := r.log + RunAll(r.end.owed) + q.log), below + [Open(id, Names(q.late))])
  {
    var mid := below + [Open(id, Names(r.late))];
    RunAllFollows(mid, r.end.owed);
    FollowAppend(open, r.log, RunAll(r.end.owed));
    OrderlyThen(open, r.log + RunAll(r.end.owed), mid, q, below + [Open(id, Names(q.late))]);
  }

  lemma {:induction false} CatchOrderly(k: Cmd, below: seq<Open>, id: nat, late: seq<Late>, p: Exc, caught: bool,
                                        recover: nat)
    ensures var r := Catch(k, late, p, caught, recover);
      Orderly(below + [Open(id, Names(late))], r, below + [Open(id, Names(r.late))])
    decreases Weight(k), 1
  {
    if !p.fault {
      EvalOrderly(Bind(k, p), below, id, late, p, caught, recover);
      var q := Eval(Bind(k, p), late, p, caught, recover);
      var open := below + [Open(id, Names(late))];
      FollowOne(open, Caught(p));
      OrderlyThen(open, [Caught(p)], open, q, below + [Open(id, Names(q.late))]);
    }
  }

  lemma RecoverOrderly(below: seq<Open>, id: nat, late: seq<Late>, p: Exc, caught: bool)
    ensures var r := Recover(late, p, caught);
      Orderly(below + [Open(id, Names(late))], r, below + [Open(id, Names(r.late))])
  {
    FollowOne(below + [Open(id, Names(late))], Contained(p.id));
  }

  /** A whole call leaves the frames that were open as they were: of its own frame, and of every one
   *  entered under it, the defers ran newest first and before the frame was popped. */
  lemma {:induction false} CallOrderly(f: nat, b: Cmd, open: seq<Open>, p: Exc, caught: bool, recover: nat)
    ensures Orderly(open, EvalCall(f, b, p, caught, recover), open)
    decreases Weight(b), 3
  {
    var r := Eval(b, [], p, caught, recover);
    var q := Close(f, r.late, r.pending, r.end, caught, recover);
    EvalOrderly(b, open, f, [], p, caught, recover);
    FollowOne(open, Entered(f));
    FollowAppend(open, [Entered(f)], r.log);
    assert Names([]) == [];
    if !r.end.Dead? {
      CloseOrderly(f, r.late, open, r.pending, r.end, caught, recover);
      OrderlyThen(open, [Entered(f)] + r.log, open + [Open(f, Names(r.late))], q, open);
    } else {
      assert [Entered(f)] + r.log + q.log == [Entered(f)] + r.log;
    }
  }

  lemma {:induction false} CloseOrderly(f: nat, late: seq<Late>, open: seq<Open>, p: Exc, end: End, caught: bool,
                                        recover: nat)
    requires !end.Dead?
    ensures Orderly(open + [Open(f, Names(late))], Close(f, late, p, end, caught, recover), open)
    decreases LateWeight(late), 2
  {
    var from := open + [Open(f, Names(late))];
    if late == [] {
      assert Names(late) == [] && from[..|from| - 1] == open;
      FollowOne(from, Popped(f));
    } else {
      LateWeightLast(late);
      var d, rest := late[|late| - 1], late[..|late| - 1];
      var mid := open + [Open(f, Names(rest))];
      RanOrderly(f, open, late, d, rest);
      CallOrderly(d.n, d.body, mid, p, caught, recover);
      var q := EvalCall(d.n, d.body, p, caught, recover);
      FollowAppend(from, [Ran(d.n)], q.log);
      if q.end.Ok? {
        CloseOrderly(f, rest, open, q.pending, end, caught, recover);
        FollowOne(mid, Released(d.n));
        FollowAppend(from, [Ran(d.n)] + q.log, [Released(d.n)]);
        OrderlyThen(from, [Ran(d.n)] + q.log + [Released(d.n)], mid,
                    Close(f, rest, q.pending, end, caught, recover), open);
      } else if q.end.Exn? {
        var end' := Exn(q.end.e, q.end.owed + [Slot(d.n)] + Owed(end));
        CloseOrderly(f, rest, open, q.pending, end', caught, recover);
        OrderlyThen(from, [Ran(d.n)] + q.log, mid, Close(f, rest, q.pending, end', caught, recover), open);
      }
    }
  }

  lemma RanOrderly(f: nat, open: seq<Open>, late: seq<Late>, d: Late, rest: seq<Late>)
    requires late != [] && d == late[|late| - 1] && rest == late[..|late| - 1]
    ensures Follow(open + [Open(f, Names(late))], [Ran(d.n)]) == Some(open + [Open(f, Names(rest))])
  {
    var from := open + [Open(f, Names(late))];
    assert from[..|from| - 1] == open && Names(late)[..|late| - 1] == Names(rest);
    FollowOne(from, Ran(d.n));
  }
}
