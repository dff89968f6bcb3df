/** Channels in every interleaving (runtime/src/task.c): any number of tasks sending, receiving,
 *  selecting and closing under the global monitor, one critical section a step.  A pass that only
 *  waits changes nothing and is no step. */
module ChannelProtocol {
  import opened ChannelRing

  type Cid = nat
  type Tid = nat

  /** `handing` are the tasks inside vl_chan_send whose value is in and which wait for it to be
   *  taken. */
  datatype State = State(chans: map<Cid, Ring>, handing: map<Tid, Cid>)

  datatype Label =
    | Opens(c: Cid, cap: int)                          // vl_chan_new
    | Sends(t: Tid, c: Cid, v: Value)                  // vl_chan_send puts the value in
    | SendFails(t: Tid, c: Cid, cancelled: bool)       // ... or raises
    | Handed(t: Tid, c: Cid)                           // its second loop ends: the channel is empty
    | HandStops(t: Tid, c: Cid, cancelled: bool)       // ... or it is closed, or the task cancelled
    | Tries(t: Tid, c: Cid, v: Value, ok: bool)        // vl_chan_try_send
    | Offers(t: Tid, c: Cid, v: Value)                 // a select's send case goes, or a timer fires
    | Receives(t: Tid, c: Cid, v: Value)               // a receive, or a select's receive case
    | SeesClosed(t: Tid, c: Cid)
    | Gives(t: Tid, c: Cid)                            // a receive, or a select, is cancelled
    | Closes(t: Tid, c: Cid, ok: bool)

  ghost predicate AllFit(s: State) {
    forall c | c in s.chans :: Fits(s.chans[c])
  }

  predicate Idle(s: State, t: Tid, c: Cid) {
    t !in s.handing && c in s.chans && Fits(s.chans[c])
  }

  predicate Begins(s: State, c: Cid, cap: int, n: State) {
    c !in s.chans && c in n.chans && Fits(n.chans[c])
    && n == s.(chans := s.chans[c := n.chans[c]])
    && Contents(n.chans[c]) == [] && !n.chans[c].closed
    && (Rendezvous(n.chans[c]) <==> cap <= 0) && |n.chans[c].buf| == if cap > 0 then cap else 1
  }

  predicate Enters(s: State, c: Cid, v: Value, n: State)
    requires c in s.chans && Fits(s.chans[c])
  {
    c in n.chans && n.chans == s.chans[c := n.chans[c]] && Accepts(s.chans[c], v, n.chans[c])
  }

  /** vl_chan_try_send puts nothing in. */
  predicate Refuses(r: Ring) {
    r.closed || Rendezvous(r) || r.count == |r.buf|
  }

  predicate Step(s: State, x: Label, n: State) {
    match x
    case Opens(c, cap) => Begins(s, c, cap, n)
    case Sends(t, c, v) =>
      Idle(s, t, c) && Enters(s, c, v, n)
      && n.handing == if Rendezvous(s.chans[c]) then s.handing[t := c] else s.handing
    case SendFails(t, c, cancelled) => Idle(s, t, c) && (s.chans[c].closed || cancelled) && n == s
    case Handed(t, c) =>
      t in s.handing && s.handing[t] == c && c in s.chans && s.chans[c].count == 0
      && n == s.(handing := s.handing - {t})
    case HandStops(t, c, cancelled) =>
      t in s.handing && s.handing[t] == c && c in s.chans && (s.chans[c].closed || cancelled)
      && n == s.(handing := s.handing - {t})
    case Tries(t, c, v, ok) =>
      Idle(s, t, c) && n.handing == s.handing
      && if ok then !Rendezvous(s.chans[c]) && Enters(s, c, v, n) else n == s && Refuses(s.chans[c])
    case Offers(t, c, v) => Idle(s, t, c) && n.handing == s.handing && Enters(s, c, v, n)
    case Receives(t, c, v) =>
      Idle(s, t, c) && c in n.chans && n == s.(chans := s.chans[c := n.chans[c]]) && Takes(s.chans[c], v, n.chans[c])
    case SeesClosed(t, c) => Idle(s, t, c) && s.chans[c].count == 0 && s.chans[c].closed && n == s
    case Gives(t, c) => Idle(s, t, c) && s.chans[c].count == 0 && !s.chans[c].closed && n == s
    case Closes(t, c, ok) =>
      Idle(s, t, c) && ok == !s.chans[c].closed && n == s.(chans := s.chans[c := s.chans[c].(closed := true)])
  }

  predicate Trace(ss: seq<State>, xs: seq<Label>) {
    |ss| == |xs| + 1 && ss[0] == State(map[], map[]) && forall i | 0 <= i < |xs| :: Step(ss[i], xs[i], ss[i + 1])
  }

  /* -------------------------------------------------------- what went in, what came out */

  /** What a step puts into a channel. */
  function In(x: Label, c: Cid): seq<Value> {
    if (x.Sends? || x.Offers? || (x.Tries? && x.ok)) && x.c == c then [x.v] else []
  }

  function Out(x: Label, c: Cid): seq<Value> {
    if x.Receives? && x.c == c then [x.v] else []
  }

  /** The values the channel has accepted in the first i steps, in order. */
  function Accepted(xs: seq<Label>, i: nat, c: Cid): seq<Value>
    requires i <= |xs|
  {
    if i == 0 then [] else Accepted(xs, i - 1, c) + In(xs[i - 1], c)
  }

  /** The values receivers have taken from it, in order. */
  function Taken(xs: seq<Label>, i: nat, c: Cid): seq<Value>
    requires i <= |xs|
  {
    if i == 0 then [] else Taken(xs, i - 1, c) + Out(xs[i - 1], c)
  }

  function Holds(s: State, c: Cid): seq<Value> {
    if c in s.chans && Fits(s.chans[c]) then Contents(s.chans[c]) else []
  }

  lemma StepFits(s: State, x: Label, n: State)
    requires AllFit(s) && Step(s, x, n)
    ensures AllFit(n)
  {
    match x
    case Sends(t, c, v) => AcceptsAppends(s.chans[c], v, n.chans[c]);
    case Tries(t, c, v, ok) => if ok { AcceptsAppends(s.chans[c], v, n.chans[c]); }
    case Offers(t, c, v) => AcceptsAppends(s.chans[c], v, n.chans[c]);
    case Receives(t, c, v) => TakesFirst(s.chans[c], v, n.chans[c]);
    case _ =>
  }

  /** One step: what comes out comes off the front, what goes in goes on the end. */
  lemma StepMoves(s: State, x: Label, n: State, c: Cid)
    requires AllFit(s) && Step(s, x, n)
    ensures Holds(s, c) + In(x, c) == Out(x, c) + Holds(n, c)
  {
    match x
    case Opens(d, cap) =>
    case Sends(t, d, v) => AcceptsAppends(s.chans[d], v, n.chans[d]);
    case Tries(t, d, v, ok) => if ok { AcceptsAppends(s.chans[d], v, n.chans[d]); }
    case Offers(t, d, v) => AcceptsAppends(s.chans[d], v, n.chans[d]);
    case Receives(t, d, v) => TakesFirst(s.chans[d], v, n.chans[d]);
    case Closes(t, d, ok) => CloseHolds(s.chans[d]);
    case _ =>
  }

  lemma CloseHolds(r: Ring)
    requires Fits(r)
    ensures Fits(r.(closed := true)) && Contents(r.(closed := true)) == Contents(r)
  {}

  lemma {:induction false} RunFits(ss: seq<State>, xs: seq<Label>, i: nat)
    requires Trace(ss, xs) && i < |ss|
    ensures AllFit(ss[i])
  {
    hide Step, AllFit;
    if i == 0 {
      assert AllFit(State(map[], map[])) by { NoneFit(); }
    } else {
      RunFits(ss, xs, i - 1);
      StepFits(ss[i - 1], xs[i - 1], ss[i]);
    }
  }

  lemma NoneFit()
    ensures AllFit(State(map[], map[]))
  {}

  /** First in, first out, and nothing lost or made up: in every run and at every moment, what
   *  the channel has accepted is what has been taken followed by what it holds. */
  lemma {:induction false} Conserved(ss: seq<State>, xs: seq<Label>, i: nat, c: Cid)
    requires Trace(ss, xs) && i < |ss|
    ensures Accepted(xs, i, c) == Taken(xs, i, c) + Holds(ss[i], c)
  {
    hide Step, AllFit, In, Out;
    if i == 0 {
      NothingHeld(c);
    } else {
      var j := i - 1;
      Conserved(ss, xs, j, c);
      RunFits(ss, xs, j);
      StepMoves(ss[j], xs[j], ss[i], c);
      assert (Taken(xs, j, c) + Holds(ss[j], c)) + In(xs[j], c) == Taken(xs, j, c) + (Holds(ss[j], c) + In(xs[j], c));
      assert Taken(xs, j, c) + (Out(xs[j], c) + Holds(ss[i], c)) == (Taken(xs, j, c) + Out(xs[j], c)) + Holds(ss[i], c);
    }
  }

  lemma NothingHeld(c: Cid)
    ensures Holds(State(map[], map[]), c) == []
  {}

  /** It never holds more than its capacity: one value, when it is unbuffered. */
  lemma NeverOverfull(ss: seq<State>, xs: seq<Label>, i: nat, c: Cid)
    requires Trace(ss, xs) && i < |ss| && c in ss[i].chans
    ensures |Accepted(xs, i, c)| - |Taken(xs, i, c)| <= |ss[i].chans[c].buf|
    ensures Rendezvous(ss[i].chans[c]) ==> |ss[i].chans[c].buf| == 1
  {
    hide Step, Trace;
    Conserved(ss, xs, i, c);
    RunFits(ss, xs, i);
  }

  /* -------------------------------------------------------- after close */

  lemma ClosedStep(s: State, x: Label, n: State, c: Cid)
    requires Step(s, x, n) && c in s.chans && s.chans[c].closed
    ensures c in n.chans && n.chans[c].closed && In(x, c) == []
  {}

  /** Nothing is accepted after close. */
  lemma {:induction false} ClosedAcceptsNothing(ss: seq<State>, xs: seq<Label>, i: nat, j: nat, c: Cid)
    requires Trace(ss, xs) && i <= j < |ss| && c in ss[i].chans && ss[i].chans[c].closed
    ensures c in ss[j].chans && ss[j].chans[c].closed
    ensures Accepted(xs, j, c) == Accepted(xs, i, c)
    decreases j
  {
    hide Step, In;
    if i < j {
      ClosedAcceptsNothing(ss, xs, i, j - 1, c);
      ClosedStep(ss[j - 1], xs[j - 1], ss[j], c);
    }
  }

  lemma SawClosedAt(s: State, x: Label, n: State)
    requires Step(s, x, n) && x.SeesClosed?
    ensures x.c in s.chans && s.chans[x.c].closed && Holds(s, x.c) == []
  {}

  lemma {:induction false} TakenGrows(xs: seq<Label>, i: nat, j: nat, c: Cid)
    requires i <= j <= |xs|
    ensures Taken(xs, i, c) <= Taken(xs, j, c) && Accepted(xs, i, c) <= Accepted(xs, j, c)
    decreases j
  {
    if i < j { TakenGrows(xs, i, j - 1, c); }
  }

  /** A receiver is told the channel is closed only when every value ever accepted, before or
   *  after, has been taken. */
  lemma DrainedBeforeClosed(ss: seq<State>, xs: seq<Label>, i: nat, j: nat)
    requires Trace(ss, xs) && i < |xs| && xs[i].SeesClosed? && j < |ss|
    ensures Accepted(xs, j, xs[i].c) <= Taken(xs, i, xs[i].c)
  {
    hide Step, Accepted, Taken;
    var c := xs[i].c;
    assert Step(ss[i], xs[i], ss[i + 1]);
    SawClosedAt(ss[i], xs[i], ss[i + 1]);
    Conserved(ss, xs, i, c);
    if i <= j { ClosedAcceptsNothing(ss, xs, i, j, c); } else { TakenGrows(xs, j, i, c); }
  }

  /* -------------------------------------------------------- rendezvous */

  lemma HandedAt(s: State, x: Label, n: State)
    requires AllFit(s) && Step(s, x, n) && x.Handed?
    ensures Holds(s, x.c) == []
  {}

  /** A send on an unbuffered channel that comes back neither closed nor cancelled has had its
   *  value taken: the one its own send put in. */
  lemma HandedOver(ss: seq<State>, xs: seq<Label>, i: nat, j: nat)
    requires Trace(ss, xs) && i < j < |xs| && xs[i].Sends? && xs[j].Handed? && xs[i].c == xs[j].c
    ensures var c := xs[i].c;
      var k := |Accepted(xs, i, c)|;
      k < |Taken(xs, j, c)| && Taken(xs, j, c)[k] == xs[i].v
  {
    hide Step, Accepted, Taken;
    var c := xs[i].c;
    assert Step(ss[j], xs[j], ss[j + 1]);
    RunFits(ss, xs, j);
    HandedAt(ss[j], xs[j], ss[j + 1]);
    Conserved(ss, xs, j, c);
    TakenGrows(xs, i + 1, j, c);
    AcceptedNext(xs, i);
    assert Accepted(xs, j, c) == Taken(xs, j, c);
    assert Accepted(xs, i + 1, c)[|Accepted(xs, i, c)|] == xs[i].v;
  }

  lemma AcceptedNext(xs: seq<Label>, i: nat)
    requires i < |xs| && xs[i].Sends?
    ensures Accepted(xs, i + 1, xs[i].c) == Accepted(xs, i, xs[i].c) + [xs[i].v]
  {}

  lemma HandingStep(s: State, x: Label, n: State, t: Tid)
    requires Step(s, x, n) && t in s.handing
    ensures (t in n.handing && n.handing[t] == s.handing[t]) || ((x.Handed? || x.HandStops?) && x.t == t
                                                                 && x.c == s.handing[t])
    ensures x.Sends? ==> x.t != t
  {}

  /** And there is no other way back: after its value is in, the next thing the sender does is to
   *  see it taken, or the channel closed, or itself cancelled. */
  lemma {:induction false} SenderWaits(ss: seq<State>, xs: seq<Label>, i: nat, j: nat)
    requires Trace(ss, xs) && i < j < |ss| && xs[i].Sends?
    requires xs[i].c in ss[i].chans && Rendezvous(ss[i].chans[xs[i].c])
    requires forall m | i < m < j :: !((xs[m].Handed? || xs[m].HandStops?) && xs[m].t == xs[i].t)
    ensures xs[i].t in ss[j].handing && ss[j].handing[xs[i].t] == xs[i].c
    decreases j
  {
    if j == i + 1 {
      assert Step(ss[i], xs[i], ss[i + 1]);
    } else {
      SenderWaits(ss, xs, i, j - 1);
      hide Step;
      assert Step(ss[j - 1], xs[j - 1], ss[j]);
      HandingStep(ss[j - 1], xs[j - 1], ss[j], xs[i].t);
    }
  }
}
