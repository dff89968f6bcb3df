/** The runtime's handler stack (runtime/src/err.c and the frames of runtime/src/value.c): one
 *  context updated step by step, proved to follow UnwindMeaning. */
module UnwindMachine {
  import opened UnwindMeaning

  datatype Frame = Frame(id: nat, late: seq<Late>)

  /** VlHandler: how many frames and cleanups there were when it was installed. */
  datatype Handler = Handler(frames: nat, cleanups: nat)

  /** How a C call ends: it returns, it is abandoned by a longjmp, or the process is gone. */
  datatype Exit = Returned | Jumped | Gone

  datatype Snap = Snap(frames: seq<Frame>, handlers: seq<Handler>, cleanups: seq<Entry>, pending: Exc, recover: nat,
                       log: seq<Event>)

  function Reverse<T>(s: seq<T>): (r: seq<T>)
    ensures |r| == |s|
  {
    if s == [] then [] else Reverse(s[1..]) + [s[0]]
  }

  lemma {:induction false} ReverseAppend<T>(x: seq<T>, y: seq<T>)
    ensures Reverse(x + y) == Reverse(y) + Reverse(x)
  {
    if x == [] {
      assert x + y == y;
    } else {
      assert (x + y)[1..] == x[1..] + y;
      ReverseAppend(x[1..], y);
    }
  }

  /** What happens to s, in which exception e left the top frame and owes the cleanups `owed`:
   *  the frames above the innermost handler end one by one, its cleanups run, and it is entered. */
  datatype Delivery = Delivered(s: Snap) | Died(log: seq<Event>)

  function Deliver(s: Snap, e: Exc, owed: seq<Entry>): Delivery
    requires |s.handlers| > 0 && s.handlers[|s.handlers| - 1].frames <= |s.frames|
    requires s.handlers[|s.handlers| - 1].cleanups <= |s.cleanups|
    decreases |s.frames|
  {
    var h := s.handlers[|s.handlers| - 1];
    if |s.frames| == h.frames then
      Delivered(s.(handlers := s.handlers[..|s.handlers| - 1], cleanups := s.cleanups[..h.cleanups],
                   log := s.log + RunAll(owed)))
    else
      var f := s.frames[|s.frames| - 1];
      var r := Close(f.id, f.late, s.pending, Exn(e, owed), true, s.recover);
      var t := s.(frames := s.frames[..|s.frames| - 1], pending := r.pending, log := s.log + r.log);
      if r.end.Exn? then Deliver(t, r.end.e, r.end.owed) else Died(t.log)
  }

  function WithLate(s: Snap, late: seq<Late>): Snap
    requires |s.frames| > 0
  {
    s.(frames := s.frames[..|s.frames| - 1] + [s.frames[|s.frames| - 1].(late := late)])
  }

  /** Every handler remembers frames and cleanups that are still there. */
  predicate Good(s: Snap) {
    && |s.frames| > 0
    && (forall i | 0 <= i < |s.handlers| ::
          1 <= s.handlers[i].frames <= |s.frames| && s.handlers[i].cleanups <= |s.cleanups|)
    && forall i, j | 0 <= i < j < |s.handlers| ::
         s.handlers[i].frames <= s.handlers[j].frames && s.handlers[i].cleanups <= s.handlers[j].cleanups
  }

  function Top(s: Snap): seq<Late>
    requires |s.frames| > 0
  {
    s.frames[|s.frames| - 1].late
  }

  /** The cleanups above the innermost handler, newest first. */
  function Newest(s: Snap): seq<Entry>
    requires Good(s)
  {
    if s.handlers == [] then [] else Reverse(s.cleanups[s.handlers[|s.handlers| - 1].cleanups..])
  }

  /** The top frame and the log have moved on as r says. */
  function After(s: Snap, r: Result): Snap
    requires |s.frames| > 0
  {
    WithLate(s, r.late).(pending := r.pending, log := s.log + r.log)
  }

  predicate Reached(d: Delivery, x: Exit, t: Snap) {
    match d
    case Delivered(u) => x == Jumped && t == u
    case Died(log) => x == Gone && t.log == log
  }

  /** The context came from s to t as the result r says: an exception has been delivered to the
   *  innermost handler, through every frame above it, before control leaves. */
  predicate Follows(s: Snap, r: Result, x: Exit, t: Snap)
    requires Good(s)
  {
    match r.end
    case Ok => x == Returned && t == After(s, r)
    case Dead => x == Gone && t.log == s.log + r.log
    case Exn(e, owed) => |s.handlers| > 0 && Reached(Deliver(After(s, r), e, owed + Newest(s)), x, t)
  }

  /* -------------------------------------------------------- what is left to do */

  /** The weight of all deferred closures still pending. */
  function Load(frames: seq<Frame>): nat {
    if frames == [] then 0 else LateWeight(frames[0].late) + Load(frames[1..])
  }

  lemma {:induction false} LoadAppend(x: seq<Frame>, y: seq<Frame>)
    ensures Load(x + y) == Load(x) + Load(y)
  {
    if x == [] {
      assert x + y == y;
    } else {
      assert (x + y)[1..] == x[1..] + y;
      LoadAppend(x[1..], y);
    }
  }

  lemma LoadTop(s: Snap, late: seq<Late>)
    requires |s.frames| > 0
    ensures Load(WithLate(s, late).frames) == Load(s.frames) - LateWeight(Top(s)) + LateWeight(late)
    ensures Load(s.frames) >= LateWeight(Top(s))
  {
    var n := |s.frames| - 1;
    assert s.frames == s.frames[..n] + [s.frames[n]];
    LoadAppend(s.frames[..n], [s.frames[n]]);
    LoadAppend(s.frames[..n], [s.frames[n].(late := late)]);
  }

  lemma LoadCut(frames: seq<Frame>, n: nat)
    requires n <= |frames|
    ensures Load(frames[..n]) <= Load(frames)
  {
    assert frames == frames[..n] + frames[n..];
    LoadAppend(frames[..n], frames[n..]);
  }

  /** A delivery cuts the frames back and leaves what is below them as it was. */
  lemma {:induction false} DeliveredCut(s: Snap, e: Exc, owed: seq<Entry>)
    requires Good(s) && |s.handlers| > 0
    ensures var h := s.handlers[|s.handlers| - 1];
      match Deliver(s, e, owed)
      case Died(_) => true
      case Delivered(t) =>
        t.frames == s.frames[..h.frames] && t.handlers == s.handlers[..|s.handlers| - 1]
        && t.cleanups == s.cleanups[..h.cleanups] && t.recover == s.recover && Good(t)
    decreases |s.frames|
  {
    var h := s.handlers[|s.handlers| - 1];
    if |s.frames| > h.frames {
      var f := s.frames[|s.frames| - 1];
      var r := Close(f.id, f.late, s.pending, Exn(e, owed), true, s.recover);
      var t := s.(frames := s.frames[..|s.frames| - 1], pending := r.pending, log := s.log + r.log);
      if r.end.Exn? { DeliveredCut(t, r.end.e, r.end.owed); }
    }
  }

  lemma FollowsGood(s: Snap, r: Result, x: Exit, t: Snap, w: nat)
    requires Good(s) && Follows(s, r, x, t) && x != Gone
    requires LateWeight(r.late) <= LateWeight(Top(s)) + w
    ensures Good(t) && Load(t.frames) <= Load(s.frames) + w && t.recover == s.recover
    ensures x == Returned ==> r.end.Ok?
    ensures x == Jumped ==>
              r.end.Exn? && |s.handlers| > 0 && t.handlers == s.handlers[..|s.handlers| - 1]
              && t.frames == After(s, r).frames[..s.handlers[|s.handlers| - 1].frames]
              && t.cleanups == s.cleanups[..s.handlers[|s.handlers| - 1].cleanups]
  {
    hide Deliver, Load, LateWeight;
    LoadTop(s, r.late);
    if r.end.Exn? {
      DeliveredCut(After(s, r), r.end.e, r.end.owed + Newest(s));
      LoadCut(After(s, r).frames, s.handlers[|s.handlers| - 1].frames);
    }
  }

  /** The top frame is gone, with what was logged and thrown on the way. */
  function Cut(s: Snap, log: seq<Event>, p: Exc): Snap
    requires |s.frames| > 0
  {
    s.(frames := s.frames[..|s.frames| - 1], pending := p, log := s.log + log)
  }

  lemma DeliverStep(s: Snap, e: Exc, owed: seq<Entry>)
    requires Good(s) && |s.handlers| > 0 && s.handlers[|s.handlers| - 1].frames < |s.frames|
    ensures var q := Close(s.frames[|s.frames| - 1].id, Top(s), s.pending, Exn(e, owed), true, s.recover);
      Good(Cut(s, q.log, q.pending))
      && Deliver(s, e, owed) == if q.end.Exn? then Deliver(Cut(s, q.log, q.pending), q.end.e,
                                                           q.end.owed) else Died(s.log + q.log)
  {
    hide Close;
  }

  /** Delivering through the top frame: its defers up to the first that throws, and on from there. */
  lemma DeliverSplit(s: Snap, e: Exc, owed: seq<Entry>)
    requires Good(s) && |s.handlers| > 0 && s.handlers[|s.handlers| - 1].frames < |s.frames|
    ensures var r := RunLate(Top(s), s.pending, true, s.recover);
      var f := s.frames[|s.frames| - 1];
      Good(After(s, r)) && Good(Cut(s, r.log + [Popped(f.id)], r.pending))
      && match r.end
         case Ok => Deliver(s, e, owed) == Deliver(Cut(s, r.log + [Popped(f.id)], r.pending), e, owed)
         case Dead => Deliver(s, e, owed) == Died(s.log + r.log)
         case Exn(e', owed') => Deliver(s, e, owed) == Deliver(After(s, r), e', owed' + owed)
  {
    hide Deliver, Close, RunLate;
    var f := s.frames[|s.frames| - 1];
    var r := RunLate(Top(s), s.pending, true, s.recover);
    CloseSplit(f.id, f.late, s.pending, Exn(e, owed), true, s.recover);
    DeliverStep(s, e, owed);
    if r.end.Exn? {
      var a := After(s, r);
      DeliverStep(a, r.end.e, r.end.owed + owed);
      var q := Close(f.id, r.late, r.pending, Exn(r.end.e, r.end.owed + owed), true, s.recover);
      assert s.log + (r.log + q.log) == (s.log + r.log) + q.log;
      assert Cut(a, q.log, q.pending) == Cut(s, r.log + q.log, q.pending);
    }
  }

  /* -------------------------------------------------------- a call, an exception at a time */

  function Push(s: Snap, id: nat): Snap {
    s.(frames := s.frames + [Frame(id, [])], log := s.log + [Entered(id)])
  }

  lemma PushTop(s: Snap, id: nat)
    ensures |Push(s, id).frames| > 0 && Top(Push(s, id)) == []
  {}

  lemma PushGood(s: Snap, id: nat)
    requires Good(s)
    ensures Good(Push(s, id)) && Load(Push(s, id).frames) == Load(s.frames) && Newest(Push(s, id)) == Newest(s)
  {
    LoadAppend(s.frames, [Frame(id, [])]);
  }

  /** The frame of a call, left with an exception, ends on the way to the handler. */
  lemma CallThrown(s: Snap, id: nat, log: seq<Event>, late: seq<Late>, p: Exc, e: Exc, owed: seq<Entry>)
    requires Good(s) && |s.handlers| > 0
    ensures var u := s.(frames := s.frames + [Frame(id, late)], pending := p, log := s.log + log);
      var q := Close(id, late, p, Exn(e, owed), true, s.recover);
      Good(u)
      && Deliver(u, e, owed + Newest(s))
         == (if q.end.Exn? then
               Deliver(s.(pending := q.pending, log := s.log + (log + q.log)), q.end.e, q.end.owed + Newest(s))
             else Died(s.log + (log + q.log)))
  {
    hide Deliver, Close;
    var u := s.(frames := s.frames + [Frame(id, late)], pending := p, log := s.log + log);
    var q := Close(id, late, p, Exn(e, owed), true, s.recover);
    OwedLast(id, late, p, e, owed, Newest(s), true, s.recover);
    DeliverStep(u, e, owed + Newest(s));
    assert u.frames[..|u.frames| - 1] == s.frames;
    assert (s.log + log) + q.log == s.log + (log + q.log);
  }

  /* -------------------------------------------------------- the context */

  lemma {:induction false} RunAllAppend(x: seq<Entry>, y: seq<Entry>)
    ensures RunAll(x + y) == RunAll(x) + RunAll(y)
  {
    if x == [] {
      assert x + y == y;
    } else {
      assert (x + y)[1..] == x[1..] + y;
      RunAllAppend(x[1..], y);
      assert [Ran1(x[0])] + (RunAll(x[1..]) + RunAll(y)) == ([Ran1(x[0])] + RunAll(x[1..])) + RunAll(y);
    }
  }

  lemma NewestFirst(s: seq<Entry>, depth: nat)
    requires depth < |s|
    ensures RunAll(Reverse(s[depth..])) == [Ran1(s[|s| - 1])] + RunAll(Reverse(s[..|s| - 1][depth..]))
  {
    var front, last := s[..|s| - 1][depth..], s[|s| - 1];
    assert s[depth..] == front + [last];
    ReverseAppend(front, [last]);
    assert Reverse([last]) == [last];
    RunAllAppend([last], Reverse(front));
  }

  class Context {
    var frames: seq<Frame>
    var handlers: seq<Handler>
    var cleanups: seq<Entry>
    var pending: Exc
    var recover: nat
    var log: seq<Event>

    constructor ()
      ensures Now() == Snap([], [], [], Exc(0, false), 0, [])
    {
      frames, handlers, cleanups, pending, recover, log := [], [], [], Exc(0, false), 0, [];
    }

    function Now(): Snap
      reads this
    {
      Snap(frames, handlers, cleanups, pending, recover, log)
    }

    /** cleanup_unwind */
    method CleanupUnwind(depth: nat)
      requires depth <= |cleanups|
      modifies this`cleanups, this`log
      ensures cleanups == old(cleanups)[..depth] && log == old(log) + RunAll(Reverse(old(cleanups)[depth..]))
    {
      while |cleanups| > depth
        invariant depth <= |cleanups| <= |old(cleanups)| && cleanups == old(cleanups)[..|cleanups|]
        invariant log + RunAll(Reverse(cleanups[depth..])) == old(log) + RunAll(Reverse(old(cleanups)[depth..]))
      {
        NewestFirst(cleanups, depth);
        var e := cleanups[|cleanups| - 1];
        cleanups := cleanups[..|cleanups| - 1];
        log := log + [Ran1(e)];
      }
      assert cleanups[depth..] == [];
    }

    /** vl_throw */
    method Throw(e: Exc) returns (x: Exit)
      requires Good(Now())
      modifies this
      ensures Follows(old(Now()), Raise(e, Top(old(Now())), old(pending), |old(handlers)| > 0), x, Now())
      decreases Load(frames), 5
    {
      ghost var s := Now();
      SameTop(s);
      if handlers == [] {
        return Gone;
      }
      pending := e;
      assert [] + Newest(s) == Newest(s);
      x := ThrowTo(e);
    }

    /** throw_to */
    method ThrowTo(ghost e: Exc) returns (x: Exit)
      requires Good(Now()) && |handlers| > 0
      modifies this
      ensures Reached(Deliver(old(Now()), e, Newest(old(Now()))), x, Now())
      decreases Load(frames), 4
    {
      var h := handlers[|handlers| - 1];
      x := UnwindTo(h.frames, e);
      if x != Returned {
        return;
      }
      CleanupUnwind(h.cleanups);
      handlers := handlers[..|handlers| - 1];
      x := Jumped;
    }

    /** vl_unwind_to: the handler is still installed while the frames above it end. */
    method UnwindTo(depth: nat, ghost e: Exc) returns (x: Exit)
      requires Good(Now()) && |handlers| > 0 && depth == handlers[|handlers| - 1].frames
      modifies this
      ensures x == Returned ==> Good(Now()) && |frames| == depth && handlers == old(handlers)
      ensures x == Returned ==> Deliver(Now(), e, Newest(Now())) == Deliver(old(Now()), e, Newest(old(Now())))
      ensures x != Returned ==> Reached(Deliver(old(Now()), e, Newest(old(Now()))), x, Now())
      decreases Load(frames), 3
    {
      hide Deliver, RunLate, Follows, Load, Good, Newest;
      GoodTop(Now());
      while |frames| > depth
        invariant Good(Now()) && |frames| >= depth && handlers == old(handlers) && recover == old(recover)
        invariant Load(frames) <= old(Load(frames))
        invariant |handlers| > 0 && depth == handlers[|handlers| - 1].frames
        invariant handlers[|handlers| - 1].cleanups <= |cleanups|
        invariant Deliver(Now(), e, Newest(Now())) == Deliver(old(Now()), e, Newest(old(Now())))
        decreases |frames|
      {
        ghost var s := Now();
        GoodTop(s);
        x := RunDefers();
        Unwound(s, e, x, Now());
        if x != Returned {
          return;
        }
        var f := frames[|frames| - 1];
        frames := frames[..|frames| - 1];
        log := log + [Popped(f.id)];
        GoodTop(Now());
      }
      x := Returned;
    }

    /** run_defers: each closure is taken off the frame before it runs, and held by a cleanup
     *  while it does. */
    method RunDefers() returns (x: Exit)
      requires Good(Now())
      modifies this
      ensures Follows(old(Now()), RunLate(Top(old(Now())), old(pending), |old(handlers)| > 0, old(recover)), x, Now())
      decreases Load(frames), 2
    {
      ghost var s := Now();
      SameTop(s);
      RunStart(s);
      hide Follows, Good, Load, EvalCall, Deliver, RunLate, Running, Prepare;
      ghost var done: seq<Event> := [];
      while frames[|frames| - 1].late != []
        invariant |frames| > 0 && Good(Now()) && Running(s, done, Now()) && Load(frames) <= Load(s.frames)
        invariant handlers == s.handlers && recover == s.recover && cleanups == s.cleanups
        decreases |frames[|frames| - 1].late|
      {
        ghost var t := Now();
        var f := frames[|frames| - 1];
        var d := f.late[|f.late| - 1];
        var mark := |cleanups|;
        frames := frames[..|frames| - 1] + [f.(late := f.late[..|f.late| - 1])];
        log := log + [Ran(d.n)];
        cleanups := cleanups + [Slot(d.n)];
        Prepared(t, d, Now());
        x := CallBody(d.n, d.body);
        ghost var u := Now();
        if x != Returned {
          Thrown(s, done, t, d, x, u);
          return;
        }
        BackShape(t, d, u);
        cleanups := cleanups[..mark];
        log := log + [Released(d.n)];
        CalledBack(s, done, t, d, Now());
        done := done
          + ([Ran(d.n)] + EvalCall(d.n, d.body, t.pending, |t.handlers| > 0, t.recover).log + [Released(d.n)]);
      }
      x := Returned;
      RunDone(s, done, Now());
    }

    /** A function: its frame is pushed, its body runs, its defers run, and it is popped. */
    method CallBody(id: nat, b: Cmd) returns (x: Exit)
      requires Good(Now())
      modifies this
      ensures Follows(old(Now()), Called(old(Now()), id, b), x, Now())
      decreases Weight(b) + Load(frames), 7
    {
      hide Follows, Good, Load, Eval, EvalCall, RunLate, Deliver, Called, Evaluated;
      ghost var s := Now();
      PushGood(s, id);
      frames := frames + [Frame(id, [])];
      log := log + [Entered(id)];
      PushTop(s, id);
      x := Exec(b);
      ghost var u := Now();
      if x != Returned {
        CallFell(s, id, b, x, u);
        return;
      }
      CallRan(s, id, b, u);
      x := RunDefers();
      ghost var w := Now();
      if x != Returned {
        CallLate(s, id, b, u, x, w);
        return;
      }
      CallDone(s, id, b, u, w);
      frames := frames[..|frames| - 1];
      log := log + [Popped(id)];
    }

    method Exec(c: Cmd) returns (x: Exit)
      requires Good(Now())
      modifies this
      ensures Follows(old(Now()), Evaluated(old(Now()), c), x, Now())
      decreases Weight(c) + Load(frames), 6
    {
      hide Follows, Good, Load, Eval, EvalCall, Deliver, Called, Evaluated;
      ghost var s := Now();
      GoodTop(s);
      match c {
        case Skip => x := Returned; Simple(s, c, Now());
        case Rethrow => x := Returned; Simple(s, c, Now());
        case Emit(n) =>
          log := log + [Emitted(n)];
          x := Returned;
          Simple(s, c, Now());
        case Throw(e) =>
          EvalThrow(s, e);
          LoadPositive(c, frames);
          x := Throw(e);
        case Fault(n) =>
          if recover > 0 && handlers != [] {
            LoadPositive(c, frames);
            x := Throw(Exc(n, true));
          } else {
            x := Gone;
          }
          EvalFault(s, n, x, Now());
        case Defer(n, b) =>
          var f := frames[|frames| - 1];
          frames := frames[..|frames| - 1] + [f.(late := f.late + [Late(n, b)])];
          log := log + [Deferred(n)];
          x := Returned;
          Simple(s, c, Now());
        case Seq(a, b) =>
          x := Exec(a);
          ghost var u := Now();
          SeqFirst(s, a, b, x, u);
          if x == Returned {
            x := Exec(b);
            SeqSecond(s, a, b, u, x, Now());
          }
        case Native(n, b) =>
          var mark := |cleanups|;
          log := log + [Pushed(n)];
          cleanups := cleanups + [Mem(n)];
          ghost var c0 := Now();
          NativeStart(s, n, c0);
          x := Exec(b);
          ghost var u := Now();
          NativeEnd(s, n, b, c0, x, u);
          if x == Returned {
            cleanups := cleanups[..mark];
            log := log + [Finished(n)];
          }
        case Call(id, b) =>
          EvalCalls(s, id, b);
          x := CallBody(id, b);
        case Try(b, k) =>
          x := ExecTry(b, k);
        case Contain(b) =>
          x := ExecContain(b);
      }
    }

    /** EHPUSH … EHPOP, and a catch block, which vl_eh_current hands the pending exception. */
    method ExecTry(b: Cmd, k: Cmd) returns (x: Exit)
      requires Good(Now())
      modifies this
      ensures Follows(old(Now()), Evaluated(old(Now()), Try(b, k)), x, Now())
      decreases Weight(b) + Weight(k) + Load(frames), 8
    {
      hide Follows, Good, Load, Eval, Catch, Deliver, Evaluated;
      ghost var s := Now();
      GoodTop(s);
      handlers := handlers + [Handler(|frames|, |cleanups|)];
      Installed(s, Now());
      assert Now() == UnderHandler(s);
      x := Exec(b);
      ghost var u := Now();
      TryBody(s, b, k, x, u);
      match x {
        case Gone =>
        case Returned =>
          handlers := handlers[..|handlers| - 1];
        case Jumped =>
          var e := pending;
          CatchFault(s, b, k, u);
          if e.fault {
            x := Throw(e);
            TryThrown(s, b, k, u, x, Now());
          } else {
            log := log + [Caught(e)];
            CatchStart(u, Now(), k);
            x := Exec(Bind(k, e));
            TryCaught(s, b, k, u, x, Now());
          }
      }
    }

    /** vl_call_contained */
    method ExecContain(b: Cmd) returns (x: Exit)
      requires Good(Now())
      modifies this
      ensures Follows(old(Now()), Evaluated(old(Now()), Contain(b)), x, Now())
      decreases Weight(b) + Load(frames), 8
    {
      hide Follows, Good, Load, Eval, Deliver, Evaluated, Newest, Landed, Recover, Weight;
      ghost var s := Now();
      GoodTop(s);
      SameGood(s, s.(recover := s.recover + 1));
      recover := recover + 1;
      handlers := handlers + [Handler(|frames|, |cleanups|)];
      ghost var d := s.(recover := s.recover + 1);
      Installed(d, Now());
      assert Now() == UnderHandler(d);
      x := Exec(b);
      ghost var u := Now();
      ContainBody(s, b, d, x, u);
      match x {
        case Gone =>
        case Returned =>
          handlers := handlers[..|handlers| - 1];
          recover := recover - 1;
        case Jumped =>
          recover := recover - 1;
          ghost var v := Now();
          x := AtRecovery();
          ContainEnd(s, b, v, x, Now());
      }
    }

    /** The recovery point: a fault ends here, anything else goes on. */
    method AtRecovery() returns (x: Exit)
      requires Good(Now())
      modifies this
      ensures Follows(old(Now()), Recover(Top(old(Now())), old(pending), |old(handlers)| > 0), x, Now())
      decreases Load(frames), 6
    {
      ghost var s := Now();
      hide Deliver, Load;
      SameTop(s);
      if !pending.fault {
        x := Throw(pending);
      } else {
        log := log + [Contained(pending.id)];
        x := Returned;
      }
    }
  }

  /** A handler put in now remembers all the frames and cleanups there are. */
  lemma Installed(s: Snap, c: Snap)
    requires Good(s) && c == s.(handlers := s.handlers + [Handler(|s.frames|, |s.cleanups|)])
    ensures Good(c) && Newest(c) == [] && |c.frames| > 0
  {
    assert s.cleanups[|s.cleanups|..] == [];
  }

  function Landed(r: Result): Result
    requires r.end.Exn?
  {
    Result(r.log + RunAll(r.end.owed), r.late, r.pending, Ok)
  }

  /** The body under a handler of its own: its exception lands there. */
  lemma Guarded(s: Snap, b: Cmd, x: Exit, u: Snap)
    requires Good(s) && Good(UnderHandler(s)) && Newest(UnderHandler(s)) == []
    requires Follows(UnderHandler(s), Eval(b, Top(s), s.pending, true, s.recover), x, u)
    ensures var r := Eval(b, Top(s), s.pending, true, s.recover);
      match x
      case Gone =>
        r.end.Dead? && u.log == s.log + r.log
      case Returned =>
        r.end.Ok? && |u.handlers| > 0 && u.handlers[..|u.handlers| - 1] == s.handlers
        && u.(handlers := s.handlers) == After(s, r) && u.recover == s.recover
      case Jumped =>
        r.end.Exn? && u == After(s, Landed(r)) && Good(u) && Load(u.frames) <= Load(s.frames) + Weight(b)
        && u.recover == s.recover
  {
    hide Eval, Load, LateWeight, Weight;
    var c := s.(handlers := s.handlers + [Handler(|s.frames|, |s.cleanups|)]);
    var r := Eval(b, Top(s), s.pending, true, s.recover);
    if r.end.Exn? {
      assert r.end.owed + [] == r.end.owed;
      assert (s.log + r.log) + RunAll(r.end.owed) == s.log + (r.log + RunAll(r.end.owed));
      assert c.handlers[..|c.handlers| - 1] == s.handlers;
      assert s.cleanups[..|s.cleanups|] == s.cleanups;
      LoadTop(s, r.late);
      EvalWeightAny(b, Top(s), s.pending, true, s.recover);
    }
  }

  lemma EvalWeightAny(b: Cmd, late: seq<Late>, p: Exc, caught: bool, recover: nat)
    ensures LateWeight(Eval(b, late, p, caught, recover).late) <= LateWeight(late) + Weight(b)
  {
    hide Weight;
  }

  lemma TryEval(s: Snap, b: Cmd, k: Cmd)
    requires |s.frames| > 0
    ensures var r := Eval(b, Top(s), s.pending, true, s.recover);
      Evaluated(s, Try(b, k))
      == if !r.end.Exn? then r
         else var q := Catch(k, r.late, r.pending, |s.handlers| > 0, s.recover); q.(log := Landed(r).log + q.log)
  {
    hide Catch;
  }

  function UnderHandler(s: Snap): Snap {
    s.(handlers := s.handlers + [Handler(|s.frames|, |s.cleanups|)])
  }

  lemma UnderIs(s: Snap, b: Cmd)
    requires |s.frames| > 0
    ensures |UnderHandler(s).frames| > 0
    ensures Evaluated(UnderHandler(s), b) == Eval(b, Top(s), s.pending, true, s.recover)
    ensures UnderHandler(s).handlers[..|UnderHandler(s).handlers| - 1] == s.handlers
  {
    hide Eval;
  }

  lemma FollowsDead(s: Snap, r: Result, u: Snap)
    requires Good(s) && r.end.Dead? && u.log == s.log + r.log
    ensures Follows(s, r, Gone, u)
  {}

  lemma FollowsOk(s: Snap, r: Result, u: Snap)
    requires Good(s) && r.end.Ok? && u == After(s, r)
    ensures Follows(s, r, Returned, u)
  {}

  lemma TryBody(s: Snap, b: Cmd, k: Cmd, x: Exit, u: Snap)
    requires Good(s) && Good(UnderHandler(s)) && Newest(UnderHandler(s)) == [] && |UnderHandler(s).frames| > 0
    requires Follows(UnderHandler(s), Evaluated(UnderHandler(s), b), x, u)
    ensures x == Gone ==> Follows(s, Evaluated(s, Try(b, k)), x, u)
    ensures x == Returned ==>
              |u.handlers| > 0 && Follows(s, Evaluated(s, Try(b, k)), x, u.(handlers := u.handlers[..|u.handlers| - 1]))
    ensures x == Jumped ==>
              var r := Eval(b, Top(s), s.pending, true, s.recover);
              r.end.Exn? && u == After(s, Landed(r)) && Good(u) && Load(u.frames) <= Load(s.frames) + Weight(b)
  {
    hide *;
    GoodTop(s);
    UnderIs(s, b);
    Guarded(s, b, x, u);
    TryEval(s, b, k);
    var r := Eval(b, Top(s), s.pending, true, s.recover);
    if x == Gone {
      FollowsDead(s, r, u);
    } else if x == Returned {
      FollowsOk(s, r, u.(handlers := s.handlers));
    }
  }

  lemma CatchFault(s: Snap, b: Cmd, k: Cmd, u: Snap)
    requires Good(s)
    requires var r := Eval(b, Top(s), s.pending, true, s.recover); r.end.Exn? && u == After(s, Landed(r))
    ensures var r := Eval(b, Top(s), s.pending, true, s.recover);
      |u.frames| > 0 && u.pending == r.pending && Top(u) == r.late && u.handlers == s.handlers && u.recover == s.recover
      && (u.pending.fault ==>
            Catch(k, r.late, r.pending, |s.handlers| > 0, s.recover) == Raise(u.pending, Top(u), u.pending,
                  |u.handlers| > 0))
  {
    hide Eval;
  }

  lemma TryThrown(s: Snap, b: Cmd, k: Cmd, u: Snap, x: Exit, t: Snap)
    requires Good(s) && Good(u) && u.pending.fault
    requires var r := Eval(b, Top(s), s.pending, true, s.recover); r.end.Exn? && u == After(s, Landed(r))
    requires Follows(u, Raise(u.pending, Top(u), u.pending, |u.handlers| > 0), x, t)
    ensures Follows(s, Evaluated(s, Try(b, k)), x, t)
  {
    CatchFault(s, b, k, u);
    hide Eval, Deliver, Catch, Good, Follows, Raise;
    var r := Eval(b, Top(s), s.pending, true, s.recover);
    TryEval(s, b, k);
    Then(s, Landed(r), u, Raise(u.pending, Top(u), u.pending, |u.handlers| > 0), x, t);
  }

  lemma CatchStart(u: Snap, v: Snap, k: Cmd)
    requires Good(u) && v == u.(log := u.log + [Caught(u.pending)])
    ensures Good(v) && v.frames == u.frames
  {}

  lemma TryCaught(s: Snap, b: Cmd, k: Cmd, u: Snap, x: Exit, t: Snap)
    requires Good(s) && Good(u) && !u.pending.fault
    requires var r := Eval(b, Top(s), s.pending, true, s.recover); r.end.Exn? && u == After(s, Landed(r))
    requires var v := u.(log := u.log + [Caught(u.pending)]);
      Good(v) && Follows(v, Evaluated(v, Bind(k, u.pending)), x, t)
    ensures Follows(s, Evaluated(s, Try(b, k)), x, t)
  {
    CatchFault(s, b, k, u);
    var r := Eval(b, Top(s), s.pending, true, s.recover);
    TryEval(s, b, k);
    SameTop(u);
    hide Eval, Deliver, Good, Follows;
    var v := u.(log := u.log + [Caught(u.pending)]);
    var one := Result([Caught(u.pending)], Top(u), u.pending, Ok);
    var q := Evaluated(v, Bind(k, u.pending));
    Then(u, one, v, q, x, t);
    Then(s, Landed(r), u, q.(log := one.log + q.log), x, t);
  }

  lemma ContainEval(s: Snap, b: Cmd)
    requires |s.frames| > 0
    ensures var r := Eval(b, Top(s), s.pending, true, s.recover + 1);
      Evaluated(s, Contain(b))
      == if !r.end.Exn? then r
         else var q := Recover(r.late, r.pending, |s.handlers| > 0); q.(log := Landed(r).log + q.log)
  {}

  lemma ContainBody(s: Snap, b: Cmd, d: Snap, x: Exit, u: Snap)
    requires Good(s) && Good(d) && d == s.(recover := s.recover + 1)
    requires Good(UnderHandler(d)) && Newest(UnderHandler(d)) == [] && |UnderHandler(d).frames| > 0
    requires Follows(UnderHandler(d), Evaluated(UnderHandler(d), b), x, u)
    ensures x == Gone ==> Follows(s, Evaluated(s, Contain(b)), x, u)
    ensures x != Gone ==> u.recover == s.recover + 1
    ensures x == Returned ==>
              |u.handlers| > 0
              && Follows(s, Evaluated(s, Contain(b)), x,
                         u.(handlers := u.handlers[..|u.handlers| - 1], recover := s.recover))
    ensures x == Jumped ==>
              var r := Eval(b, Top(s), s.pending, true, s.recover + 1);
              var v := u.(recover := s.recover);
              r.end.Exn? && v == After(s, Landed(r)) && Good(v) && Load(v.frames) <= Load(s.frames) + Weight(b)
  {
    hide *;
    GoodTop(s);
    GoodTop(d);
    SameTops(s, d);
    UnderIs(d, b);
    Guarded(d, b, x, u);
    ContainEval(s, b);
    var r := Eval(b, Top(s), s.pending, true, s.recover + 1);
    SameAfter(s, d, r);
    if x == Gone {
      FollowsDead(s, r, u);
    } else if x == Returned {
      FollowsOk(s, r, u.(handlers := s.handlers, recover := s.recover));
    } else {
      SameAfter(s, d, Landed(r));
      SameGood(u, u.(recover := s.recover));
    }
  }

  lemma SameTops(s: Snap, d: Snap)
    requires |s.frames| > 0 && d == s.(recover := d.recover)
    ensures |d.frames| > 0 && Top(d) == Top(s)
  {}

  lemma SameAfter(s: Snap, d: Snap, r: Result)
    requires |s.frames| > 0 && d == s.(recover := d.recover)
    ensures |d.frames| > 0 && After(d, r) == After(s, r).(recover := d.recover) && After(s, r).recover == s.recover
    ensures After(s, r).handlers == s.handlers && After(s, r) == After(d, r).(recover := s.recover)
  {}

  lemma SameGood(u: Snap, v: Snap)
    requires v == u.(recover := v.recover)
    ensures Good(u) ==> Good(v)
  {}

  lemma ContainEnd(s: Snap, b: Cmd, u: Snap, x: Exit, t: Snap)
    requires Good(s) && Good(u)
    requires var r := Eval(b, Top(s), s.pending, true, s.recover + 1); r.end.Exn? && u == After(s, Landed(r))
    requires Follows(u, Recover(Top(u), u.pending, |u.handlers| > 0), x, t)
    ensures Follows(s, Evaluated(s, Contain(b)), x, t)
  {
    var r := Eval(b, Top(s), s.pending, true, s.recover + 1);
    ContainEval(s, b);
    hide Eval, Deliver, Good, Recover, Follows;
    Then(s, Landed(r), u, Recover(Top(u), u.pending, |u.handlers| > 0), x, t);
  }

  function Evaluated(s: Snap, c: Cmd): Result
    requires |s.frames| > 0
  {
    Eval(c, Top(s), s.pending, |s.handlers| > 0, s.recover)
  }

  lemma LoadPositive(c: Cmd, frames: seq<Frame>)
    ensures Load(frames) < Weight(c) + Load(frames)
  {
    hide Load;
  }

  lemma Simple(s: Snap, c: Cmd, t: Snap)
    requires Good(s)
    requires c.Skip? || c.Rethrow? || c.Emit? || c.Defer?
    requires c.Skip? || c.Rethrow? ==> t == s
    requires c.Emit? ==> t == s.(log := s.log + [Emitted(c.n)])
    requires c.Defer? ==> t == WithLate(s, Top(s) + [Late(c.n, c.body)]).(log := s.log + [Deferred(c.n)])
    ensures Follows(s, Evaluated(s, c), Returned, t)
  {
    SameTop(s);
  }

  lemma EvalThrow(s: Snap, e: Exc)
    requires |s.frames| > 0
    ensures Evaluated(s, Throw(e)) == Raise(e, Top(s), s.pending, |s.handlers| > 0)
  {}

  lemma EvalFault(s: Snap, n: nat, x: Exit, t: Snap)
    requires Good(s)
    requires if s.recover > 0 && s.handlers != []
      then Follows(s, Raise(Exc(n, true), Top(s), s.pending, |s.handlers| > 0), x, t)
      else x == Gone && t == s
    ensures Follows(s, Evaluated(s, Fault(n)), x, t)
  {
    hide Deliver;
    SameTop(s);
  }

  lemma EvalCalls(s: Snap, id: nat, b: Cmd)
    requires |s.frames| > 0
    ensures Evaluated(s, Call(id, b)) == Called(s, id, b)
    ensures Weight(Call(id, b)) == Weight(b) + 2
  {
    hide EvalCall;
  }

  lemma SeqFirst(s: Snap, a: Cmd, b: Cmd, x: Exit, u: Snap)
    requires Good(s) && Follows(s, Evaluated(s, a), x, u)
    ensures x != Returned ==> Follows(s, Evaluated(s, Seq(a, b)), x, u)
    ensures x == Returned ==> Good(u) && Weight(b) + Load(u.frames) < Weight(Seq(a, b)) + Load(s.frames)
    ensures Weight(a) + Load(s.frames) < Weight(Seq(a, b)) + Load(s.frames)
  {
    hide Deliver, Load;
    assert Evaluated(s, a).end.Ok? || Evaluated(s, Seq(a, b)) == Evaluated(s, a);
    if x == Returned { FollowsGood(s, Evaluated(s, a), x, u, Weight(a)); }
  }

  /** One result after another. */
  lemma Then(s: Snap, r: Result, u: Snap, q: Result, x: Exit, t: Snap)
    requires Good(s) && r.end.Ok? && u == After(s, r) && Good(u) && Follows(u, q, x, t)
    ensures Follows(s, q.(log := r.log + q.log), x, t)
  {
    hide Deliver;
    var w := q.(log := r.log + q.log);
    assert (s.log + r.log) + q.log == s.log + (r.log + q.log);
    assert u.frames[..|u.frames| - 1] == s.frames[..|s.frames| - 1];
    assert After(u, q) == After(s, w);
  }

  lemma SeqSecond(s: Snap, a: Cmd, b: Cmd, u: Snap, x: Exit, t: Snap)
    requires Good(s) && Good(u) && Follows(s, Evaluated(s, a), Returned, u) && Follows(u, Evaluated(u, b), x, t)
    ensures Follows(s, Evaluated(s, Seq(a, b)), x, t)
  {
    hide Deliver, Eval;
    var r := Evaluated(s, a);
    assert Top(u) == r.late && u.handlers == s.handlers && u.recover == s.recover && u.pending == r.pending by {
      AfterTop(s, r, u);
    }
    SeqEval(s, a, b);
    Then(s, r, u, Evaluated(u, b), x, t);
  }

  lemma AfterTop(s: Snap, r: Result, u: Snap)
    requires Good(s) && Follows(s, r, Returned, u)
    ensures r.end.Ok? && u == After(s, r)
    ensures |u.frames| > 0 && Top(u) == r.late && u.handlers == s.handlers && u.recover == s.recover
    ensures u.pending == r.pending
  {
    hide Deliver;
  }

  lemma SeqEval(s: Snap, a: Cmd, b: Cmd)
    requires |s.frames| > 0
    ensures var r := Evaluated(s, a);
      Evaluated(s, Seq(a, b))
      == if !r.end.Ok? then r
         else var q := Eval(b, r.late, r.pending, |s.handlers| > 0, s.recover); q.(log := r.log + q.log)
  {}

  lemma NativeStart(s: Snap, n: nat, c: Snap)
    requires Good(s) && c == s.(log := s.log + [Pushed(n)], cleanups := s.cleanups + [Mem(n)])
    ensures Good(c) && |c.frames| > 0 && (|s.handlers| > 0 ==> Newest(c) == [Mem(n)] + Newest(s))
  {
    if |s.handlers| > 0 {
      var m := s.handlers[|s.handlers| - 1].cleanups;
      assert (s.cleanups + [Mem(n)])[m..] == s.cleanups[m..] + [Mem(n)];
      ReverseAppend(s.cleanups[m..], [Mem(n)]);
      assert Reverse([Mem(n)]) == [Mem(n)];
    }
  }

  lemma NativeEval(s: Snap, n: nat, b: Cmd)
    requires |s.frames| > 0
    ensures var r := Evaluated(s, b);
      Evaluated(s, Native(n, b))
      == Result([Pushed(n)] + r.log + (if r.end.Ok? then [Finished(n)] else []), r.late, r.pending,
                if r.end.Exn? then Exn(r.end.e, r.end.owed + [Mem(n)]) else r.end)
  {}

  lemma NativeEnd(s: Snap, n: nat, b: Cmd, c: Snap, x: Exit, u: Snap)
    requires Good(s) && Good(c) && c == s.(log := s.log + [Pushed(n)], cleanups := s.cleanups + [Mem(n)])
    requires |s.handlers| > 0 ==> Newest(c) == [Mem(n)] + Newest(s)
    requires Follows(c, Evaluated(c, b), x, u)
    ensures x != Returned ==> Follows(s, Evaluated(s, Native(n, b)), x, u)
    ensures x == Returned ==>
              |u.cleanups| >= |s.cleanups|
              && Follows(s, Evaluated(s, Native(n, b)), x,
                         u.(cleanups := u.cleanups[..|s.cleanups|], log := u.log + [Finished(n)]))
  {
    var r := Evaluated(s, b);
    assert Evaluated(c, b) == r;
    NativeEval(s, n, b);
    hide Eval, Deliver;
    var w := Evaluated(s, Native(n, b));
    assert (s.log + [Pushed(n)]) + r.log == s.log + ([Pushed(n)] + r.log);
    if r.end.Exn? {
      assert r.end.owed + ([Mem(n)] + Newest(s)) == (r.end.owed + [Mem(n)]) + Newest(s);
      assert [Pushed(n)] + r.log + [] == [Pushed(n)] + r.log;
      GoodAfter(c, r);
      GoodAfter(s, w);
      DeliverSame(After(c, r), After(s, w), r.end.e, w.end.owed + Newest(s));
    } else if r.end.Ok? {
      assert ((s.log + [Pushed(n)]) + r.log) + [Finished(n)] == s.log + ([Pushed(n)] + r.log + [Finished(n)]);
    } else {
      assert [Pushed(n)] + r.log + [] == [Pushed(n)] + r.log;
    }
  }

  lemma CalledIs(s: Snap, id: nat, b: Cmd)
    requires |s.frames| > 0
    ensures |Push(s, id).frames| > 0
    ensures var r := Evaluated(Push(s, id), b);
      var z := Close(id, r.late, r.pending, r.end, |s.handlers| > 0, s.recover);
      Called(s, id, b) == Result([Entered(id)] + r.log + z.log, Top(s), z.pending, z.end)
      && After(Push(s, id), r)
         == s.(frames := s.frames + [Frame(id, r.late)], pending := r.pending, log := s.log + ([Entered(id)] + r.log))
  {
    hide Eval, Close;
    var r := Evaluated(Push(s, id), b);
    assert After(Push(s, id), r).frames == s.frames + [Frame(id, r.late)];
    assert (s.log + [Entered(id)]) + r.log == s.log + ([Entered(id)] + r.log);
  }

  lemma AfterCall(s: Snap, log: seq<Event>, p: Exc, end: End)
    requires |s.frames| > 0
    ensures After(s, Result(log, Top(s), p, end)) == s.(pending := p, log := s.log + log)
  {
    SameTop(s);
  }

  /** The body of a call left its frame without returning. */
  lemma CallFell(s: Snap, id: nat, b: Cmd, x: Exit, u: Snap)
    requires Good(s) && Good(Push(s, id)) && x != Returned
    requires Follows(Push(s, id), Evaluated(Push(s, id), b), x, u)
    ensures Follows(s, Called(s, id, b), x, u)
  {
    PushGood(s, id);
    GoodTop(s);
    CalledIs(s, id, b);
    assert Push(s, id).handlers == s.handlers;
    hide Deliver, Close, Good, Newest, After, Push, Called, Evaluated, Top;
    var r := Evaluated(Push(s, id), b);
    var z := Close(id, r.late, r.pending, r.end, |s.handlers| > 0, s.recover);
    AfterCall(s, [Entered(id)] + r.log + z.log, z.pending, z.end);
    if r.end.Exn? {
      CallThrown(s, id, [Entered(id)] + r.log, r.late, r.pending, r.end.e, r.end.owed);
    } else {
      CloseDead(id, r.late, r.pending, |s.handlers| > 0, s.recover);
      assert [Entered(id)] + r.log + [] == [Entered(id)] + r.log;
      DeadLog(s, id, r);
    }
  }

  lemma DeadLog(s: Snap, id: nat, r: Result)
    ensures Push(s, id).log + r.log == s.log + ([Entered(id)] + r.log)
  {
    assert (s.log + [Entered(id)]) + r.log == s.log + ([Entered(id)] + r.log);
  }

  lemma CloseDead(id: nat, late: seq<Late>, p: Exc, caught: bool, recover: nat)
    ensures Close(id, late, p, Dead, caught, recover) == Result([], [], p, Dead)
  {}

  /** The body of a call came to its normal end. */
  lemma CallRan(s: Snap, id: nat, b: Cmd, u: Snap)
    requires Good(s) && Good(Push(s, id))
    requires Follows(Push(s, id), Evaluated(Push(s, id), b), Returned, u)
    ensures var r := Eval(b, [], s.pending, |s.handlers| > 0, s.recover);
      r.end.Ok? && Good(u) && Load(u.frames) <= Load(s.frames) + Weight(b)
      && u == s.(frames := s.frames + [Frame(id, r.late)], pending := r.pending, log := s.log + ([Entered(id)] + r.log))
  {
    hide Deliver, Eval, Load, LateWeight, Weight;
    var r := Eval(b, [], s.pending, |s.handlers| > 0, s.recover);
    EvalWeight(b, s.pending, |s.handlers| > 0, s.recover);
    FollowsGood(Push(s, id), r, Returned, u, Weight(b));
    PushGood(s, id);
    assert u.frames == s.frames + [Frame(id, r.late)];
    assert u.log == s.log + ([Entered(id)] + r.log);
  }

  lemma EvalWeight(b: Cmd, p: Exc, caught: bool, recover: nat)
    ensures LateWeight(Eval(b, [], p, caught, recover).late) <= LateWeight([]) + Weight(b)
  {
    hide Weight;
  }

  /** A defer of a call that was otherwise done left with an exception. */
  lemma CallLate(s: Snap, id: nat, b: Cmd, u: Snap, x: Exit, w: Snap)
    requires Good(s) && Good(u) && x != Returned
    requires var r := Eval(b, [], s.pending, |s.handlers| > 0, s.recover);
      r.end.Ok?
      && u == s.(frames := s.frames + [Frame(id, r.late)], pending := r.pending, log := s.log + ([Entered(id)] + r.log))
    requires Follows(u, RunLate(Top(u), u.pending, |u.handlers| > 0, u.recover), x, w)
    ensures Follows(s, Called(s, id, b), x, w)
  {
    hide Deliver, Eval, Close, RunLate;
    var r := Eval(b, [], s.pending, |s.handlers| > 0, s.recover);
    var q := RunLate(r.late, r.pending, |s.handlers| > 0, s.recover);
    CloseSplit(id, r.late, r.pending, Ok, |s.handlers| > 0, s.recover);
    SameTop(s);
    var v := After(u, q);
    assert v.frames == s.frames + [Frame(id, q.late)];
    var log := [Entered(id)] + r.log + q.log;
    assert v.log == s.log + log;
    if q.end.Exn? {
      assert q.end.owed + Owed(Ok) == q.end.owed;
      CallThrown(s, id, log, q.late, q.pending, q.end.e, q.end.owed);
      var z := Close(id, q.late, q.pending, Exn(q.end.e, q.end.owed), |s.handlers| > 0, s.recover);
      assert [Entered(id)] + r.log + (q.log + z.log) == log + z.log;
      assert v == s.(frames := s.frames + [Frame(id, q.late)], pending := q.pending, log := s.log + log);
      assert After(s, Called(s, id, b)) == s.(pending := z.pending, log := s.log + (log + z.log));
    }
  }

  lemma CallDone(s: Snap, id: nat, b: Cmd, u: Snap, w: Snap)
    requires Good(s) && Good(u)
    requires var r := Eval(b, [], s.pending, |s.handlers| > 0, s.recover);
      r.end.Ok?
      && u == s.(frames := s.frames + [Frame(id, r.late)], pending := r.pending, log := s.log + ([Entered(id)] + r.log))
    requires Follows(u, RunLate(Top(u), u.pending, |u.handlers| > 0, u.recover), Returned, w)
    ensures |w.frames| > 0
    ensures Follows(s, Called(s, id, b), Returned,
                    w.(frames := w.frames[..|w.frames| - 1], log := w.log + [Popped(id)]))
  {
    hide Deliver, Eval, Close, RunLate;
    var r := Eval(b, [], s.pending, |s.handlers| > 0, s.recover);
    var q := RunLate(r.late, r.pending, |s.handlers| > 0, s.recover);
    CloseSplit(id, r.late, r.pending, Ok, |s.handlers| > 0, s.recover);
    SameTop(s);
    assert w.frames[..|w.frames| - 1] == s.frames;
    assert w.log + [Popped(id)] == s.log + ([Entered(id)] + r.log + (q.log + [Popped(id)]));
  }

  /** The effect of a call made in s: the caller's own deferred closures stay. */
  function Called(s: Snap, id: nat, b: Cmd): Result
    requires |s.frames| > 0
  {
    EvalCall(id, b, s.pending, |s.handlers| > 0, s.recover).(late := Top(s))
  }

  /** Since s, some of the top frame's deferred closures have run, each to its normal end. */
  predicate Running(s: Snap, done: seq<Event>, t: Snap) {
    && |s.frames| > 0 && |t.frames| > 0
    && t == WithLate(s, Top(t)).(pending := t.pending, log := s.log + done)
    && t.cleanups == s.cleanups && t.handlers == s.handlers && t.recover == s.recover
    && var r := RunLate(Top(t), t.pending, |s.handlers| > 0, s.recover);
       RunLate(Top(s), s.pending, |s.handlers| > 0, s.recover) == r.(log := done + r.log)
  }

  /** The context in which the newest deferred closure d of t runs. */
  function Prepare(t: Snap, d: Late): Snap
    requires |t.frames| > 0 && Top(t) != []
  {
    WithLate(t, Top(t)[..|Top(t)| - 1]).(log := t.log + [Ran(d.n)], cleanups := t.cleanups + [Slot(d.n)])
  }

  lemma RunStart(s: Snap)
    requires |s.frames| > 0
    ensures Running(s, [], s)
  {
    SameTop(s);
    var r := RunLate(Top(s), s.pending, |s.handlers| > 0, s.recover);
    assert [] + r.log == r.log;
  }

  lemma Prepared(t: Snap, d: Late, now: Snap)
    requires Good(t) && Top(t) != [] && d == Top(t)[|Top(t)| - 1]
    requires now
         == t.(frames := t.frames[..|t.frames| - 1] + [t.frames[|t.frames| - 1].(late := Top(t)[..|Top(t)| - 1])],
                       log := t.log + [Ran(d.n)], cleanups := t.cleanups + [Slot(d.n)])
    ensures now == Prepare(t, d)
    ensures Good(Prepare(t, d)) && Weight(d.body) + Load(Prepare(t, d).frames) < Load(t.frames)
  {
    LoadTop(t, Top(t)[..|Top(t)| - 1]);
    LateWeightLast(Top(t));
  }

  lemma Thrown(s: Snap, done: seq<Event>, t: Snap, d: Late, x: Exit, u: Snap)
    requires Good(s) && Good(t) && Running(s, done, t) && t.cleanups == s.cleanups && t.handlers == s.handlers
    requires Top(t) != [] && d == Top(t)[|Top(t)| - 1]
    requires Good(Prepare(t, d)) && Follows(Prepare(t, d), Called(Prepare(t, d), d.n, d.body), x, u) && x != Returned
    ensures Follows(s, RunLate(Top(s), s.pending, |s.handlers| > 0, s.recover), x, u)
  {
    hide Deliver, EvalCall, RunLate, Good;
    var c := Prepare(t, d);
    var q := EvalCall(d.n, d.body, t.pending, |t.handlers| > 0, t.recover);
    LateStep(Top(t), t.pending, |s.handlers| > 0, s.recover);
    assert s.log + (done + ([Ran(d.n)] + q.log)) == ((s.log + done) + [Ran(d.n)]) + q.log;
    if q.end.Exn? {
      NewestSlot(t, d);
      assert q.end.owed + ([Slot(d.n)] + Newest(s)) == (q.end.owed + [Slot(d.n)]) + Newest(s);
      var r := RunLate(Top(s), s.pending, |s.handlers| > 0, s.recover);
      var x, y := After(c, Called(c, d.n, d.body)), After(s, r);
      assert y == x.(cleanups := s.cleanups);
      GoodAfter(c, Called(c, d.n, d.body));
      GoodAfter(s, r);
      DeliverSame(x, y, q.end.e, r.end.owed + Newest(s));
    }
  }

  lemma GoodAfter(s: Snap, r: Result)
    requires Good(s)
    ensures Good(After(s, r)) && Newest(After(s, r)) == Newest(s)
  {}

  lemma GoodTop(s: Snap)
    requires Good(s)
    ensures |s.frames| > 0
    ensures |s.handlers| > 0 ==> 1 <= s.handlers[|s.handlers| - 1].frames <= |s.frames|
    ensures |s.handlers| > 0 ==> s.handlers[|s.handlers| - 1].cleanups <= |s.cleanups|
  {}

  lemma RunDone(s: Snap, done: seq<Event>, t: Snap)
    requires Good(s) && Running(s, done, t) && Top(t) == []
    ensures Follows(s, RunLate(Top(s), s.pending, |s.handlers| > 0, s.recover), Returned, t)
  {
    assert done + [] == done;
  }

  /** Entries above the handler's mark do not matter once they are owed. */
  lemma {:induction false} DeliverSame(s: Snap, t: Snap, e: Exc, owed: seq<Entry>)
    requires Good(s) && Good(t) && |s.handlers| > 0 && t == s.(cleanups := t.cleanups)
    requires var m := s.handlers[|s.handlers| - 1].cleanups; s.cleanups[..m] == t.cleanups[..m]
    ensures Deliver(s, e, owed) == Deliver(t, e, owed)
    decreases |s.frames|
  {
    hide Close;
    var h := s.handlers[|s.handlers| - 1];
    if |s.frames| > h.frames {
      var f := s.frames[|s.frames| - 1];
      var r := Close(f.id, f.late, s.pending, Exn(e, owed), true, s.recover);
      if r.end.Exn? { DeliverSame(Cut(s, r.log, r.pending), Cut(t, r.log, r.pending), r.end.e, r.end.owed); }
    }
  }

  lemma NewestSlot(t: Snap, d: Late)
    requires Good(t) && |t.handlers| > 0 && Top(t) != [] && Good(Prepare(t, d))
    ensures Newest(Prepare(t, d)) == [Slot(d.n)] + Newest(t)
  {
    var m := t.handlers[|t.handlers| - 1].cleanups;
    assert (t.cleanups + [Slot(d.n)])[m..] == t.cleanups[m..] + [Slot(d.n)];
    ReverseAppend(t.cleanups[m..], [Slot(d.n)]);
    assert Reverse([Slot(d.n)]) == [Slot(d.n)];
  }

  /** What the context is after closure d of t has come to its normal end, and been released. */
  function Back(t: Snap, d: Late, u: Snap): Snap
    requires |u.cleanups| >= |t.cleanups|
  {
    u.(cleanups := u.cleanups[..|t.cleanups|], log := u.log + [Released(d.n)])
  }

  lemma BackShape(t: Snap, d: Late, u: Snap)
    requires Good(t) && Top(t) != [] && d == Top(t)[|Top(t)| - 1]
    requires Good(Prepare(t, d)) && Follows(Prepare(t, d), Called(Prepare(t, d), d.n, d.body), Returned, u)
    ensures |u.cleanups| >= |t.cleanups| && |u.frames| > 0
    ensures var q := EvalCall(d.n, d.body, t.pending, |t.handlers| > 0, t.recover);
      var rest := Top(t)[..|Top(t)| - 1];
      q.end.Ok? && Good(Back(t, d, u)) && Top(Back(t, d, u)) == rest && Load(Back(t, d, u).frames) <= Load(t.frames)
      && Back(t, d, u) == WithLate(t, rest).(pending := q.pending, log := t.log
        + ([Ran(d.n)] + q.log + [Released(d.n)]))
  {
    hide EvalCall, Deliver, Load;
    var c := Prepare(t, d);
    LoadTop(t, Top(c));
    LateWeightLast(Top(t));
    SameTop(c);
    var q := EvalCall(d.n, d.body, t.pending, |t.handlers| > 0, t.recover);
    assert ((t.log + [Ran(d.n)]) + q.log) + [Released(d.n)] == t.log + ([Ran(d.n)] + q.log + [Released(d.n)]);
    assert (t.cleanups + [Slot(d.n)])[..|t.cleanups|] == t.cleanups;
  }

  lemma CalledBack(s: Snap, done: seq<Event>, t: Snap, d: Late, v: Snap)
    requires Good(s) && Good(t) && Running(s, done, t) && t.handlers == s.handlers && t.recover == s.recover
    requires Top(t) != [] && d == Top(t)[|Top(t)| - 1]
    requires var q := EvalCall(d.n, d.body, t.pending, |t.handlers| > 0, t.recover);
      q.end.Ok? && v == WithLate(t, Top(t)[..|Top(t)| - 1]).(pending := q.pending,
                                                             log := t.log + ([Ran(d.n)] + q.log + [Released(d.n)]))
    ensures var q := EvalCall(d.n, d.body, t.pending, |t.handlers| > 0, t.recover);
      Running(s, done + ([Ran(d.n)] + q.log + [Released(d.n)]), v)
  {
    hide EvalCall, Deliver, RunLate, Good;
    LateStep(Top(t), t.pending, |s.handlers| > 0, s.recover);
    var q := EvalCall(d.n, d.body, t.pending, |t.handlers| > 0, t.recover);
    var more := [Ran(d.n)] + q.log + [Released(d.n)];
    var r := RunLate(Top(t)[..|Top(t)| - 1], q.pending, |s.handlers| > 0, s.recover);
    assert done + (more + r.log) == (done + more) + r.log;
    assert s.log + (done + more) == (s.log + done) + more;
  }

  lemma SameTop(s: Snap)
    requires |s.frames| > 0
    ensures WithLate(s, Top(s)) == s && s.log + [] == s.log
  {
    assert s.frames[..|s.frames| - 1] + [s.frames[|s.frames| - 1]] == s.frames;
  }

  /** One frame's defers have run, with exception e on the way. */
  lemma Unwound(s: Snap, e: Exc, x: Exit, t: Snap)
    requires Good(s) && |s.handlers| > 0 && s.handlers[|s.handlers| - 1].frames < |s.frames|
    requires Follows(s, RunLate(Top(s), s.pending, true, s.recover), x, t)
    ensures x != Returned ==> Reached(Deliver(s, e, Newest(s)), x, t)
    ensures x == Returned ==>
              |t.frames| == |s.frames| && t.handlers == s.handlers && t.recover == s.recover
              && Load(t.frames[..|t.frames| - 1]) <= Load(s.frames)
    ensures x == Returned ==>
              var u := Cut(t, [Popped(t.frames[|t.frames| - 1].id)], t.pending);
              Good(u) && Deliver(u, e, Newest(u)) == Deliver(s, e, Newest(s))
  {
    hide Deliver, RunLate, Load;
    var r := RunLate(Top(s), s.pending, true, s.recover);
    DeliverSplit(s, e, Newest(s));
    LoadCut(s.frames, |s.frames| - 1);
    if x == Returned {
      var id := s.frames[|s.frames| - 1].id;
      assert (s.log + r.log) + [Popped(id)] == s.log + (r.log + [Popped(id)]);
      assert t.frames[..|t.frames| - 1] == s.frames[..|s.frames| - 1];
    }
  }
}
