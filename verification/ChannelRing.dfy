/** Channels (runtime/src/task.c): a ring of slots under the global monitor, a rendezvous channel
 *  being one slot whose head is -1; and select over several of them. */
module ChannelRing {
  import opened Options

  datatype Value = Nil | Item(id: nat)

  /** VlChan; its capacity is the length of `buf`. */
  datatype Ring = Ring(buf: seq<Value>, head: int, count: nat, closed: bool)

  predicate Fits(r: Ring) {
    && 0 < |r.buf| && r.count <= |r.buf|
    && -1 <= r.head < |r.buf| && (r.head == -1 ==> |r.buf| == 1)
  }

  predicate Rendezvous(r: Ring) {
    r.head == -1
  }

  /** ring_head */
  function Start(r: Ring): nat
    requires Fits(r)
  {
    if Rendezvous(r) then 0 else r.head
  }

  /** The slot i places along from the first. */
  function Slot(r: Ring, i: nat): (k: nat)
    requires Fits(r)
    ensures k < |r.buf|
  {
    (Start(r) + i) % |r.buf|
  }

  /** What the channel holds, oldest first. */
  function Contents(r: Ring): seq<Value>
    requires Fits(r)
  {
    seq(r.count, i requires 0 <= i => r.buf[Slot(r, i)])
  }

  function Put(r: Ring, v: Value): Ring
    requires Fits(r)
  {
    r.(buf := r.buf[Slot(r, r.count) := v], count := r.count + 1)
  }

  function Drop(r: Ring): Ring
    requires Fits(r) && r.count > 0
  {
    r.(head := if Rendezvous(r) then -1 else (r.head + 1) % |r.buf|, count := r.count - 1)
  }

  /** A value goes in: the channel is open and has room. */
  predicate Accepts(r: Ring, v: Value, n: Ring)
    requires Fits(r)
  {
    !r.closed && r.count < |r.buf| && n == Put(r, v)
  }

  /** The oldest value comes out, closed or not. */
  predicate Takes(r: Ring, v: Value, n: Ring)
    requires Fits(r)
  {
    r.count > 0 && v == r.buf[Slot(r, 0)] && n == Drop(r)
  }

  /* -------------------------------------------------------- the ring is a queue */

  lemma Wraps(x: nat, y: nat)
    requires 0 < y && x < 2 * y
    ensures x % y == if x < y then x else x - y
  {
    if x >= y { assert x == (x - y) + y && (x - y) % y == x - y; }
  }

  lemma SlotIs(r: Ring, i: nat)
    requires Fits(r) && i <= |r.buf|
    ensures Slot(r, i) == if Start(r) + i < |r.buf| then Start(r) + i else Start(r) + i - |r.buf|
  {
    Wraps(Start(r) + i, |r.buf|);
  }

  lemma AcceptsAppends(r: Ring, v: Value, n: Ring)
    requires Fits(r) && Accepts(r, v, n)
    ensures Fits(n) && Contents(n) == Contents(r) + [v]
  {
    SlotIs(r, r.count);
    forall i | 0 <= i < n.count ensures Contents(n)[i] == (Contents(r) + [v])[i] {
      SlotIs(r, i);
      SlotIs(n, i);
    }
  }

  lemma TakesFirst(r: Ring, v: Value, n: Ring)
    requires Fits(r) && Takes(r, v, n)
    ensures Fits(n) && Contents(r) == [v] + Contents(n)
  {
    Wraps(Start(r) + 1, |r.buf|);
    forall i | 0 <= i < n.count ensures Contents(n)[i] == Contents(r)[i + 1] {
      SlotIs(r, i + 1);
      SlotIs(n, i);
    }
  }

  /* -------------------------------------------------------- a channel in memory */

  /** One pass of a blocking operation's loop: what it does, or that it waits and looks again. */
  datatype Pass = Waits | Done | Refused | Cancelled | Got(v: Value) | SawClosed

  class Chan {
    const buf: array<Value>
    var head: int
    var count: nat
    var closed: bool

    ghost function Now(): Ring
      reads this, buf
    {
      Ring(buf[..], head, count, closed)
    }

    ghost predicate Valid()
      reads this, buf
    {
      Fits(Now())
    }

    /** vl_chan_new */
    constructor (cap: int)
      ensures Valid() && fresh(buf)
      ensures Contents(Now()) == [] && !closed && (Rendezvous(Now()) <==> cap <= 0)
      ensures buf.Length == if cap > 0 then cap else 1
    {
      buf := new Value[if cap > 0 then cap else 1];
      head := if cap <= 0 then -1 else 0;
      count := 0;
      closed := false;
    }

    method Enter(v: Value)
      requires Valid() && !closed && count < buf.Length
      modifies this`count, buf
      ensures Valid() && Accepts(old(Now()), v, Now())
    {
      var h := if head == -1 then 0 else head;
      ghost var was := Now();
      buf[(h + count) % buf.Length] := v;
      count := count + 1;
      AcceptsAppends(was, v, Now());
    }

    /** A pass of vl_chan_send's first loop. */
    method SendPass(v: Value, cancelled: bool) returns (out: Pass)
      requires Valid()
      modifies this`count, buf
      ensures Valid()
      ensures match out
        case Refused => old(closed) && Now() == old(Now())
        case Cancelled => !old(closed) && cancelled && Now() == old(Now())
        case Done => !cancelled && Accepts(old(Now()), v, Now())
        case Waits => !old(closed) && !cancelled && old(count) == buf.Length && Now() == old(Now())
        case _ => false
    {
      if closed { return Refused; }
      if cancelled { return Cancelled; }
      if count < buf.Length {
        Enter(v);
        return Done;
      }
      return Waits;
    }

    /** A pass of its second loop, on a rendezvous channel: until a receiver has taken the value. */
    method HandPass(cancelled: bool) returns (out: Pass)
      requires Valid()
      ensures out in {Done, SawClosed, Cancelled, Waits}
      ensures out == Done <==> count == 0
      ensures out == SawClosed ==> closed
      ensures out == Cancelled ==> cancelled
      ensures out == Waits <==> count > 0 && !closed && !cancelled
    {
      if count == 0 { return Done; }
      if closed { return SawClosed; }
      if cancelled { return Cancelled; }
      return Waits;
    }

    /** vl_chan_try_send */
    method TrySend(v: Value) returns (ok: bool)
      requires Valid()
      modifies this`count, buf
      ensures Valid()
      ensures ok ==> !Rendezvous(old(Now())) && Accepts(old(Now()), v, Now())
      ensures !ok ==> Now() == old(Now())
      ensures !ok <==> old(closed) || Rendezvous(old(Now())) || old(count) == buf.Length
    {
      if closed || head == -1 || count >= buf.Length { return false; }
      Enter(v);
      return true;
    }

    /** chan_take */
    method Take() returns (v: Option<Value>)
      requires Valid()
      modifies this`head, this`count
      ensures Valid()
      ensures v.Some? ==> Takes(old(Now()), v.value, Now())
      ensures v.None? ==> old(count) == 0 && Now() == old(Now())
    {
      if count == 0 { return None; }
      ghost var was := Now();
      var h := if head == -1 then 0 else head;
      v := Some(buf[h % buf.Length]);
      if head != -1 { head := (head + 1) % buf.Length; }
      count := count - 1;
      TakesFirst(was, v.value, Now());
    }

    /** A pass of vl_chan_recv_ok's loop: a value if there is one, even closed, even cancelled. */
    method RecvPass(cancelled: bool) returns (out: Pass)
      requires Valid()
      modifies this`head, this`count
      ensures Valid()
      ensures match out
        case Got(v) => Takes(old(Now()), v, Now())
        case SawClosed => old(count) == 0 && old(closed) && Now() == old(Now())
        case Cancelled => old(count) == 0 && !old(closed) && cancelled && Now() == old(Now())
        case Waits => old(count) == 0 && !old(closed) && !cancelled && Now() == old(Now())
        case _ => false
    {
      var v := Take();
      if v.Some? { return Got(v.value); }
      if closed { return SawClosed; }
      if cancelled { return Cancelled; }
      return Waits;
    }

    /** vl_chan_close */
    method Close() returns (ok: bool)
      requires Valid()
      modifies this`closed
      ensures Valid() && ok == !old(closed) && Now() == old(Now()).(closed := true)
    {
      if closed { return false; }
      closed := true;
      return true;
    }
  }

  /* -------------------------------------------------------- select */

  datatype Case = Recv(ch: Chan) | Send(ch: Chan, v: Value) | Default

  function Channels(cases: seq<Case>): set<Chan> {
    set c | c in cases && !c.Default? :: c.ch
  }

  function Buffers(cases: seq<Case>): set<array<Value>> {
    set c | c in cases && !c.Default? :: c.ch.buf
  }

  ghost predicate AllValid(cases: seq<Case>)
    reads Channels(cases), Buffers(cases)
  {
    forall i | 0 <= i < |cases| && !cases[i].Default? ::
      cases[i].ch in Channels(cases) && cases[i].ch.buf in Buffers(cases) && cases[i].ch.Valid()
  }

  /** Whether a case can go: a receive on a channel with a value or closed, a send on an open
   *  channel with room. */
  ghost predicate Ready(c: Case)
    reads if c.Default? then {} else {c.ch}
  {
    match c
    case Recv(ch) => ch.count > 0 || ch.closed
    case Send(ch, _) => !ch.closed && ch.count < ch.buf.Length
    case Default => false
  }

  /** The default select falls back on: the last one written. */
  function LastDefault(cases: seq<Case>): (d: int)
    ensures -1 <= d < |cases|
    ensures d >= 0 ==> cases[d].Default?
    ensures forall i | d < i < |cases| :: !cases[i].Default?
  {
    if cases == [] then -1
    else if cases[|cases| - 1].Default? then |cases| - 1
    else LastDefault(cases[..|cases| - 1])
  }

  /** Channels have their own buffers. */
  predicate Separate(cases: seq<Case>) {
    forall i, j | 0 <= i < |cases| && 0 <= j < |cases| && !cases[i].Default? && !cases[j].Default? ::
      cases[i].ch != cases[j].ch ==> cases[i].ch.buf != cases[j].ch.buf
  }

  /** What a case does when it goes. */
  predicate Went(c: Case, was: Ring, out: Pass, now: Ring)
    requires Fits(was) && !c.Default?
  {
    match out
    case Got(v) => c.Recv? && Takes(was, v, now)
    case SawClosed => c.Recv? && was.count == 0 && was.closed && now == was
    case Done => c.Send? && Accepts(was, c.v, now)
    case _ => false
  }

  /** A receive that goes has the oldest value, or sees the channel closed and empty; a send that goes has
   *  put its own value last. */
  lemma WentExact(c: Case, was: Ring, out: Pass, now: Ring)
    requires Fits(was) && !c.Default? && Went(c, was, out, now)
    ensures Fits(now) && now.closed == was.closed
    ensures c.Recv? ==>
      (out.Got? && Contents(was) == [out.v] + Contents(now))
      || (out.SawClosed? && Contents(was) == [] && was.closed && Contents(now) == [])
    ensures c.Send? ==> out.Done? && !was.closed && Contents(now) == Contents(was) + [c.v]
  {
    match out
    case Got(v) => TakesFirst(was, v, now);
    case Done => AcceptsAppends(was, c.v, now);
    case _ =>
  }

  /** One case is tried: it goes exactly when it is ready, and moves its own channel only. */
  method TryCase(c: Case) returns (went: bool, out: Pass)
    requires !c.Default? ==> c.ch.Valid()
    modifies if c.Default? then {} else {c.ch}, if c.Default? then {} else {c.ch.buf}
    ensures went == old(Ready(c))
    ensures !c.Default? ==> c.ch.Valid()
    ensures went ==> !c.Default? && Went(c, old(c.ch.Now()), out, c.ch.Now())
    ensures !went && !c.Default? ==> unchanged(c.ch) && unchanged(c.ch.buf)
  {
    went, out := false, Waits;
    match c
    case Recv(ch) =>
      var v := ch.Take();
      if v.Some? { return true, Got(v.value); }
      if ch.closed { return true, SawClosed; }
    case Send(ch, v) =>
      if !ch.closed && ch.count < ch.buf.Length {
        ch.Enter(v);
        return true, Done;
      }
    case Default =>
  }

  method FindDefault(cases: seq<Case>) returns (def: int)
    ensures def == LastDefault(cases)
  {
    def := -1;
    for i := 0 to |cases|
      invariant def == LastDefault(cases[..i])
    {
      assert cases[..i + 1][..i] == cases[..i];
      if cases[i].Default? { def := i; }
    }
    assert cases[..|cases|] == cases;
  }

  /** The cases are tried in order until one goes. */
  method Poll(cases: seq<Case>) returns (chosen: int, out: Pass)
    requires AllValid(cases) && Separate(cases)
    modifies Channels(cases), Buffers(cases)
    ensures -1 <= chosen < |cases|
    ensures chosen >= 0 ==> old(Ready(cases[chosen])) && !cases[chosen].Default?
    ensures chosen >= 0 ==> cases[chosen].ch.Valid()
    ensures chosen >= 0 ==> Went(cases[chosen], old(cases[chosen].ch.Now()), out, cases[chosen].ch.Now())
    ensures forall i | 0 <= i < |cases| && (chosen < 0 || i < chosen) :: !old(Ready(cases[i]))
    ensures forall i | 0 <= i < |cases| && !cases[i].Default? && (chosen < 0 || cases[i].ch != cases[chosen].ch) ::
      cases[i].ch.Now() == old(cases[i].ch.Now())
  {
    hide Ready, Fits, LastDefault, Went;
    for i := 0 to |cases|
      invariant forall j | 0 <= j < i :: !old(Ready(cases[j]))
      invariant forall c | c in Channels(cases) :: unchanged(c)
      invariant forall b | b in Buffers(cases) :: unchanged(b)
    {
      assert cases[i] in cases;
      var went, o := TryCase(cases[i]);
      if went { return i, o; }
    }
    return -1, Waits;
  }

  lemma ReadyIs(cases: seq<Case>)
    ensures forall i | 0 <= i < |cases| && !cases[i].Default? ::
      Ready(cases[i]) <==>
      if cases[i].Recv? then cases[i].ch.count > 0 || cases[i].ch.closed
      else !cases[i].ch.closed && cases[i].ch.count < cases[i].ch.buf.Length
  {}

  /** A pass of vl_select's loop: the least case that is ready goes, and only its channel moves;
   *  with none, the default; with no default, Cancelled or another pass. */
  method SelectPass(cases: seq<Case>, cancelled: bool) returns (chosen: int, out: Pass)
    requires AllValid(cases) && Separate(cases)
    modifies Channels(cases), Buffers(cases)
    ensures AllValid(cases)
    ensures -1 <= chosen < |cases|
    ensures chosen >= 0 && !cases[chosen].Default? ==> old(Ready(cases[chosen]))
    ensures chosen >= 0 && !cases[chosen].Default? ==>
      Went(cases[chosen], old(cases[chosen].ch.Now()), out, cases[chosen].ch.Now())
    ensures chosen >= 0 && cases[chosen].Default? ==> chosen == LastDefault(cases) && out == Done
    ensures chosen < 0 ==> LastDefault(cases) < 0 && out == if cancelled then Cancelled else Waits
    ensures forall i | 0 <= i < |cases| && (chosen < 0 || i < chosen || cases[chosen].Default?) :: !old(Ready(cases[i]))
    ensures forall i | 0 <= i < |cases| && !cases[i].Default?
      && (chosen < 0 || i < chosen || cases[chosen].Default?) ::
      if cases[i].Recv? then old(cases[i].ch.count) == 0 && !old(cases[i].ch.closed)
      else old(cases[i].ch.closed) || old(cases[i].ch.count) >= cases[i].ch.buf.Length
    ensures forall i | 0 <= i < |cases| && !cases[i].Default?
      && (chosen < 0 || cases[chosen].Default? || cases[i].ch != cases[chosen].ch) ::
      cases[i].ch.Now() == old(cases[i].ch.Now())
  {
    ReadyIs(cases);
    hide Ready, Fits, Went, Separate;
    var def := FindDefault(cases);
    chosen, out := Poll(cases);
    if chosen < 0 {
      if def >= 0 { return def, Done; }
      return -1, if cancelled then Cancelled else Waits;
    }
  }
}
