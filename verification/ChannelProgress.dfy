/** What a task can do with a channel, by what the channel holds. */
module ChannelProgress {
  import opened ChannelRing
  import opened ChannelProtocol

  ghost predicate Can(s: State, x: Label) {
    exists n :: Step(s, x, n)
  }

  /** A send goes through exactly on an open channel with room, a receive exactly where there is a value,
   *  and with the oldest one; closed is seen exactly on a closed channel with none. */
  lemma IdleMay(ss: seq<State>, xs: seq<Label>, i: nat, t: Tid, c: Cid, v: Value, cancelled: bool)
    requires Trace(ss, xs) && i < |ss| && t !in ss[i].handing && c in ss[i].chans
    ensures var s, r := ss[i], ss[i].chans[c];
      && Fits(r)
      && (Can(s, Sends(t, c, v)) <==> !r.closed && |Contents(r)| < |r.buf|)
      && (Can(s, SendFails(t, c, cancelled)) <==> r.closed || cancelled)
      && (Can(s, Tries(t, c, v, true)) <==> !r.closed && |Contents(r)| < |r.buf| && !Rendezvous(r))
      && (Can(s, Tries(t, c, v, false)) <==> r.closed || |Contents(r)| == |r.buf| || Rendezvous(r))
      && (Can(s, Receives(t, c, v)) <==> Contents(r) != [] && v == Contents(r)[0])
      && (Can(s, SeesClosed(t, c)) <==> Contents(r) == [] && r.closed)
      && (Can(s, Closes(t, c, true)) <==> !r.closed)
  {
    RunFits(ss, xs, i);
    hide Trace;
    var s, r := ss[i], ss[i].chans[c];
    assert Fits(r);
    SendMay(s, t, c, v, cancelled);
    ReceiveMay(s, t, c, v);
  }

  lemma SendMay(s: State, t: Tid, c: Cid, v: Value, cancelled: bool)
    requires AllFit(s) && t !in s.handing && c in s.chans
    ensures var r := s.chans[c];
      && (Can(s, Sends(t, c, v)) <==> !r.closed && |Contents(r)| < |r.buf|)
      && (Can(s, SendFails(t, c, cancelled)) <==> r.closed || cancelled)
      && (Can(s, Tries(t, c, v, true)) <==> !r.closed && |Contents(r)| < |r.buf| && !Rendezvous(r))
      && (Can(s, Tries(t, c, v, false)) <==> r.closed || |Contents(r)| == |r.buf| || Rendezvous(r))
  {
    var r := s.chans[c];
    if !r.closed && r.count < |r.buf| {
      var n := s.(chans := s.chans[c := Put(r, v)]);
      assert Step(s, Sends(t, c, v), n.(handing := if Rendezvous(r) then s.handing[t := c] else s.handing));
      if !Rendezvous(r) { assert Step(s, Tries(t, c, v, true), n); }
    }
    if r.closed || cancelled { assert Step(s, SendFails(t, c, cancelled), s); }
    if Refuses(r) { assert Step(s, Tries(t, c, v, false), s); }
  }

  lemma ReceiveMay(s: State, t: Tid, c: Cid, v: Value)
    requires AllFit(s) && t !in s.handing && c in s.chans
    ensures var r := s.chans[c];
      && (Can(s, Receives(t, c, v)) <==> Contents(r) != [] && v == Contents(r)[0])
      && (Can(s, SeesClosed(t, c)) <==> Contents(r) == [] && r.closed)
      && (Can(s, Closes(t, c, true)) <==> !r.closed)
  {
    var r := s.chans[c];
    if r.count > 0 && v == r.buf[Slot(r, 0)] {
      assert Step(s, Receives(t, c, v), s.(chans := s.chans[c := Drop(r)]));
    }
    if r.count == 0 && r.closed { assert Step(s, SeesClosed(t, c), s); }
    if !r.closed { assert Step(s, Closes(t, c, true), s.(chans := s.chans[c := r.(closed := true)])); }
  }

  /** A sender's wait on an unbuffered channel ends exactly when its value is gone, the channel is closed,
   *  or the task is cancelled. */
  lemma HandingMay(s: State, t: Tid, c: Cid, cancelled: bool)
    requires AllFit(s) && t in s.handing && s.handing[t] == c && c in s.chans
    ensures Can(s, Handed(t, c)) <==> Contents(s.chans[c]) == []
    ensures Can(s, HandStops(t, c, cancelled)) <==> s.chans[c].closed || cancelled
  {
    var n := s.(handing := s.handing - {t});
    if s.chans[c].count == 0 { assert Step(s, Handed(t, c), n); }
    if s.chans[c].closed || cancelled { assert Step(s, HandStops(t, c, cancelled), n); }
  }
}
