/** The registry of live foreign allocations (runtime/src/ffi.c): a set of addresses in an open
 *  addressing table with tombstones. */
module AllocRegistry {
  import opened Probing

  const EMPTY := 0
  const TOMB := 1

  /** slot_of: a multiplication in 64 bits, shifted and masked (the table is a power of two). */
  function Home(a: nat, cap: nat): (h: nat)
    requires cap > 0
    ensures h < cap
  {
    ((a * 0x9E3779B97F4A7C15) % 0x1_0000_0000_0000_0000 / 0x2_0000) % cap
  }

  /** The slots that hold addresses, and those that hold tombstones. */
  ghost function Lives(t: seq<int>): set<nat> { set s: nat | s < |t| && t[s] > TOMB }
  ghost function Tombs(t: seq<int>): set<nat> { set s: nat | s < |t| && t[s] == TOMB }

  ghost function Members(t: seq<int>): set<int> { set s: nat | s < |t| && t[s] > TOMB :: t[s] }

  ghost predicate Once(t: seq<int>) {
    forall r, s | 0 <= r < |t| && 0 <= s < |t| && r != s && t[r] > TOMB :: t[r] != t[s]
  }

  ghost predicate Sits(t: seq<int>, a: nat, k: nat)
    requires |t| > 0
  {
    k < |t| && t[At(Home(a, |t|), k, |t|)] == a && Path(t, EMPTY, Home(a, |t|), k)
  }

  /** Each address is where a probe for it comes. */
  ghost predicate Hashed(t: seq<int>) {
    && Once(t) && (forall s | 0 <= s < |t| :: t[s] >= 0)
    && forall s | 0 <= s < |t| && t[s] > TOMB :: exists k :: Sits(t, t[s], k)
  }

  lemma Parts(t: seq<int>)
    requires forall s | 0 <= s < |t| :: t[s] >= 0
    ensures |Filled(t, EMPTY)| == |Lives(t)| + |Tombs(t)|
  {
    assert Filled(t, EMPTY) == Lives(t) + Tombs(t);
  }

  /** An address stays where it is when another slot gets something. */
  lemma SitStays(t: seq<int>, s: nat, v: int, a: nat, k: nat)
    requires |t| > 0 && s < |t| && Sits(t, a, k) && t[s] != a && v != EMPTY
    ensures Sits(t[s := v], a, k)
  {}

  lemma AllSit(t: seq<int>, s: nat, v: nat, k: nat)
    requires Hashed(t) && s < |t| && v > EMPTY && (v > TOMB ==> Sits(t[s := v], v, k))
    requires t[s] <= TOMB || v <= TOMB
    requires v > TOMB ==> forall r | 0 <= r < |t| :: t[r] != v
    ensures Hashed(t[s := v])
  {
    var u := t[s := v];
    forall r | 0 <= r < |u| && u[r] > TOMB ensures exists j :: Sits(u, u[r], j) {
      if r == s {
        assert Sits(u, u[r], k);
      } else {
        var j: nat :| Sits(t, t[r], j);
        SitStays(t, s, v, t[r], j);
      }
    }
    forall q, r | 0 <= q < |u| && 0 <= r < |u| && q != r && u[q] > TOMB ensures u[q] != u[r] {
      if q != s && r != s { assert t[q] != t[r]; }
    }
  }

  lemma MembersPut(t: seq<int>, s: nat, a: nat)
    requires s < |t| && t[s] <= TOMB && a > TOMB
    ensures Members(t[s := a]) == Members(t) + {a as int}
  {
    var u := t[s := a as int];
    assert u[s] == a;
    forall x | x in Members(t) ensures x in Members(u) {
      var r: nat :| r < |t| && t[r] > TOMB && t[r] == x;
      assert u[r] == x;
    }
  }

  lemma MembersDrop(t: seq<int>, s: nat)
    requires s < |t| && t[s] > TOMB && Once(t)
    ensures Members(t[s := TOMB]) == Members(t) - {t[s]}
  {
    var u := t[s := TOMB];
    forall x | x in Members(t) - {t[s]} ensures x in Members(u) {
      var r: nat :| r < |t| && t[r] > TOMB && t[r] == x;
      assert u[r] == x;
    }
    forall x | x in Members(u) ensures x in Members(t) - {t[s]} {
      var r: nat :| r < |u| && u[r] > TOMB && u[r] == x;
      assert t[r] == x;
    }
  }

  lemma NotMember(t: seq<int>, a: nat)
    requires a !in Members(t) && a > TOMB
    ensures forall r | 0 <= r < |t| :: t[r] != a
  {
    forall r | 0 <= r < |t| ensures t[r] != a {
      assert t[r] > TOMB ==> t[r] in Members(t);
    }
  }

  /** Where a probe for a first comes to a slot that holds no address. */
  ghost predicate Spot(t: seq<int>, a: nat, s: nat, k: nat) {
    s < |t| && k < |t| && Path(t, EMPTY, Home(a, |t|), k) && s == At(Home(a, |t|), k, |t|) && t[s] <= TOMB
  }

  /** Putting a new address there. */
  lemma Entered(t: seq<int>, a: nat, s: nat, k: nat)
    requires Hashed(t) && a > TOMB && a !in Members(t) && Spot(t, a, s, k)
    ensures Hashed(t[s := a]) && Members(t[s := a]) == Members(t) + {a as int}
    ensures |Lives(t[s := a])| == |Lives(t)| + 1
    ensures |Tombs(t[s := a])| == |Tombs(t)| - if t[s] == TOMB then 1 else 0
  {
    var u := t[s := a as int];
    NotMember(t, a);
    assert Sits(u, a, k);
    AllSit(t, s, a, k);
    MembersPut(t, s, a);
    assert Lives(u) == Lives(t) + {s};
    assert Tombs(u) == Tombs(t) - {s};
  }

  /** Burying one. */
  lemma Buried(t: seq<int>, s: nat)
    requires s < |t| && Hashed(t) && t[s] > TOMB
    ensures Hashed(t[s := TOMB]) && Members(t[s := TOMB]) == Members(t) - {t[s]}
    ensures |Lives(t[s := TOMB])| == |Lives(t)| - 1 && |Tombs(t[s := TOMB])| == |Tombs(t)| + 1
  {
    var u := t[s := TOMB];
    AllSit(t, s, TOMB, 0);
    MembersDrop(t, s);
    assert Lives(u) == Lives(t) - {s};
    assert Tombs(u) == Tombs(t) + {s};
  }

  /** A probe for a that ends without meeting it, at an empty slot or all the way round. */
  ghost predicate Vain(t: seq<int>, a: nat, k: nat) {
    |t| > 0 && k <= |t| && Path(t, EMPTY, Home(a, |t|), k)
    && forall j | 0 <= j < k :: t[At(Home(a, |t|), j, |t|)] != a
  }

  lemma Absent(t: seq<int>, a: nat, k: nat)
    requires Hashed(t) && a > TOMB && Vain(t, a, k)
    requires k == |t| || t[At(Home(a, |t|), k, |t|)] == EMPTY
    ensures a as int !in Members(t)
  {
    forall s | 0 <= s < |t| ensures t[s] != a {
      if t[s] > TOMB {
        var j: nat :| Sits(t, t[s], j);
        assert t[s] == a ==> j < k;
        assert j < k ==> t[At(Home(a, |t|), j, |t|)] != a;
      }
    }
  }

  lemma LivesMore(t: seq<int>, i: nat)
    requires i < |t|
    ensures |Lives(t[..i + 1])| == |Lives(t[..i])| + if t[i] > TOMB then 1 else 0
    ensures Members(t[..i + 1]) == Members(t[..i]) + if t[i] > TOMB then {t[i]} else {}
  {
    var p, q := t[..i], t[..i + 1];
    assert Lives(q) == Lives(p) + if t[i] > TOMB then {i} else {};
    forall x | x in Members(q) ensures x in Members(p) + if t[i] > TOMB then {t[i]} else {} {
      var s: nat :| s < |q| && q[s] > TOMB && q[s] == x;
      if s < i { assert p[s] == x; }
    }
    forall x | x in Members(p) ensures x in Members(q) {
      var s: nat :| s < |p| && p[s] > TOMB && p[s] == x;
      assert q[s] == x;
    }
    if t[i] > TOMB { assert q[i] == t[i]; }
  }

  lemma LivesPrefix(t: seq<int>, i: nat)
    requires i <= |t|
    ensures |Lives(t[..i])| <= |Lives(t)|
  {
    SubsetSize(Lives(t[..i]), Lives(t));
  }

  lemma {:induction false} SubsetSize<T>(a: set<T>, b: set<T>)
    requires a <= b
    ensures |a| <= |b|
  {
    if a != {} {
      var x :| x in a;
      SubsetSize(a - {x}, b - {x});
    }
  }

  lemma Blank(t: seq<int>)
    requires forall s | 0 <= s < |t| :: t[s] == EMPTY
    ensures Hashed(t) && Members(t) == {} && Lives(t) == {} && Tombs(t) == {}
  {}

  /** The table of a registry with n addresses and so many tombstones: half of it is free. */
  ghost predicate Right(t: seq<int>, n: int, tomb: int) {
    && (|t| == 0 || PowerOfTwo(|t|)) && Hashed(t)
    && n == |Lives(t)| && tomb == |Tombs(t)| && 2 * (n + tomb) <= |t|
  }

  lemma RightIs(t: seq<int>, n: int, tomb: int)
    requires Right(t, n, tomb)
    ensures |Filled(t, EMPTY)| == n + tomb && n >= 0 && tomb >= 0 && 2 * (n + tomb) <= |t|
    ensures Hashed(t) && n == |Lives(t)| && tomb == |Tombs(t)|
    ensures |t| > 0 ==> PowerOfTwo(|t|)
  {
    Parts(t);
  }

  lemma RightPut(t: seq<int>, n: int, tomb: int, a: nat, s: nat, k: nat)
    requires Right(t, n, tomb) && 2 * (n + tomb + 1) <= |t| && a > TOMB && a !in Members(t) && Spot(t, a, s, k)
    ensures Members(t[s := a]) == Members(t) + {a as int}
    ensures Right(t[s := a], n + 1, tomb - if t[s] == TOMB then 1 else 0)
  {
    Entered(t, a, s, k);
  }

  /** The state of reg_rehash's loop: the first i slots are done. */
  ghost predicate Moved(t: seq<int>, i: nat, u: seq<int>) {
    i <= |t| && Hashed(u) && Members(u) == Members(t[..i]) && |Lives(u)| == |Lives(t[..i])| && Tombs(u) == {}
  }

  lemma MoveStarts(t: seq<int>, u: seq<int>)
    requires forall s | 0 <= s < |u| :: u[s] == EMPTY
    ensures Moved(t, 0, u)
  {
    Blank(u);
    Blank(t[..0]);
  }

  lemma MoveRoom(t: seq<int>, n: int, tomb: int, i: nat, u: seq<int>)
    requires Right(t, n, tomb) && Moved(t, i, u) && i < |t| && (n + 1) * 4 <= |u|
    ensures |Filled(u, EMPTY)| < |u|
  {
    LivesPrefix(t, i);
    Parts(u);
  }

  lemma MoveOn(t: seq<int>, i: nat, u: seq<int>, s: nat, k: nat)
    requires Once(t) && Moved(t, i, u) && i < |t| && t[i] > TOMB && Spot(u, t[i], s, k)
    ensures Moved(t, i + 1, u[s := t[i]])
  {
    LivesMore(t, i);
    NotYet(t, i);
    Entered(u, t[i], s, k);
    assert Tombs(u[s := t[i]]) == {};
  }

  lemma MovePast(t: seq<int>, i: nat, u: seq<int>)
    requires Moved(t, i, u) && i < |t| && t[i] <= TOMB
    ensures Moved(t, i + 1, u)
  {
    LivesMore(t, i);
  }

  lemma NotYet(t: seq<int>, i: nat)
    requires Once(t) && i < |t| && t[i] > TOMB
    ensures t[i] !in Members(t[..i])
  {}

  lemma MoveEnds(t: seq<int>, n: int, tomb: int, u: seq<int>)
    requires Right(t, n, tomb) && Moved(t, |t|, u) && (n + 1) * 4 <= |u| && PowerOfTwo(|u|)
    ensures Right(u, n, 0) && Members(u) == Members(t)
  {
    assert t[..|t|] == t;
  }

  class Registry {
    var live: array<int>
    var n: int
    var tomb: int

    ghost predicate Valid()
      reads this, live
    {
      Right(live[..], n, tomb)
    }

    ghost function Contents(): set<int>
      reads this, live
    {
      Members(live[..])
    }

    constructor ()
      ensures Valid() && Contents() == {} && live.Length == 0 && fresh(live)
    {
      live := new int[0];
      n, tomb := 0, 0;
      new;
      Blank(live[..]);
    }

    /** reg_rehash: the live entries, and no tombstones, in a table of ncap slots. */
    method Rehash(ncap: nat)
      requires Valid() && PowerOfTwo(ncap) && (n + 1) * 4 <= ncap
      modifies this`live, this`tomb
      ensures Valid() && Contents() == old(Contents()) && tomb == 0 && live.Length == ncap && fresh(live)
    {
      hide Right, Moved, Hashed, Spot, PowerOfTwo, Members;
      ghost var t := live[..];
      RightIs(t, n, tomb);
      var nt := new int[ncap](_ => EMPTY);
      MoveStarts(t, nt[..]);
      for i := 0 to live.Length
        invariant live == old(live) && live[..] == t && tomb == old(tomb)
        invariant fresh(nt)
        invariant Moved(t, i, nt[..])
      {
        if live[i] > TOMB {
          ghost var u := nt[..];
          MoveRoom(t, n, tomb, i, u);
          var j: nat;
          ghost var k: nat;
          j, k := Probe(nt, live[i]);
          SpotIs(u, live[i], j, k);
          MoveOn(t, i, u, j, k);
          nt[j] := live[i];
          assert nt[..] == u[j := t[i]];
        } else {
          MovePast(t, i, nt[..]);
        }
      }
      MoveEnds(t, n, tomb, nt[..]);
      live, tomb := nt, 0;
    }

    /** The probe of both loops: past addresses, to the first slot that holds none. */
    static method Probe(t: array<int>, a: nat) returns (j: nat, ghost k: nat)
      requires t.Length > 0 && |Filled(t[..], EMPTY)| < t.Length
      ensures Spot(t[..], a, j, k)
    {
      var h := Home(a, t.Length);
      j, k := h, 0;
      while t[j] > TOMB
        invariant k <= t.Length && Path(t[..], EMPTY, h, k) && j == At(h, k, t.Length)
        decreases t.Length - k
      {
        NotRound(t[..], EMPTY, h, k);
        NextAt(h, k, t.Length);
        j := (j + 1) % t.Length;
        k := k + 1;
      }
      NotRound(t[..], EMPTY, h, k);
    }

    /** reg_insert: room is made first, counting tombstones; the table doubles for live entries. */
    method Insert(a: nat)
      requires Valid() && a > TOMB && a as int !in Contents()
      modifies this, live
      ensures Valid() && Contents() == old(Contents()) + {a as int} && (live == old(live) || fresh(live))
      ensures old(live.Length) == 0 ==> live.Length == 64
    {
      hide Right, Hashed, Spot, PowerOfTwo, Members;
      RightIs(live[..], n, tomb);
      if (n + tomb + 1) * 2 > live.Length {
        StartSize();
        var ncap: nat := if live.Length > 0 then live.Length else 64;
        while (n + 1) * 4 > ncap
          invariant PowerOfTwo(ncap) && ncap > 0 && (live.Length == 0 ==> ncap == 64)
          invariant live == old(live) && live[..] == old(live[..]) && n == old(n) && tomb == old(tomb)
          decreases (n + 1) * 4 - ncap
        {
          Doubled(ncap);
          ncap := ncap * 2;
        }
        Rehash(ncap);
      }
      ghost var t := live[..];
      RightIs(t, n, tomb);
      var j: nat;
      ghost var k: nat;
      j, k := Probe(live, a);
      SpotIs(t, a, j, k);
      RightPut(t, n, tomb, a, j, k);
      if live[j] == TOMB { tomb := tomb - 1; }
      live[j] := a;
      n := n + 1;
      assert live[..] == t[j := a as int];
    }

    /** A probe for a meets a tombstone before it meets an empty slot. */
    ghost predicate TombAhead(a: nat)
      reads this, live
    {
      Ahead(live[..], a)
    }

    /** reg_remove: whether a was in the registry; and out it goes.  The address 1 reads as a
     *  tombstone: it is reported as removed if there is one on the way, and the counts are then
     *  one off each way. */
    method Remove(a: nat) returns (ok: bool, ghost s: nat)
      requires Valid()
      modifies this`n, this`tomb, live
      ensures ok <==> if a == TOMB then old(TombAhead(a)) else a as int in old(Contents())
      ensures Contents() == old(Contents()) - {a as int}
      ensures a != TOMB ==> Valid()
      ensures !ok ==> live[..] == old(live[..]) && n == old(n) && tomb == old(tomb)
      ensures ok ==> n == old(n) - 1 && tomb == old(tomb) + 1
      ensures ok ==> s < live.Length && old(live[s]) == a && live[..] == old(live[..])[s := TOMB]
    {
      hide Right, Hashed, PowerOfTwo, Members, Vain, Ahead, Path;
      s := 0;
      ghost var t := live[..];
      if live.Length == 0 {
        NothingIn(t, a);
        return false, s;
      }
      var h := Home(a, live.Length);
      var j: nat := h;
      var k: nat := 0;
      VainStarts(t, a);
      while k < live.Length && live[j] != EMPTY
        invariant live[..] == t && n == old(n) && tomb == old(tomb)
        invariant k <= live.Length && j == At(h, k, live.Length) && Vain(t, a, k)
      {
        if live[j] == a {
          s := j;
          Taken(t, n, tomb, a, j, k);
          live[j] := TOMB;
          n := n - 1;
          tomb := tomb + 1;
          assert live[..] == t[j := TOMB];
          return true, s;
        }
        VainOn(t, a, k);
        j := (j + 1) % live.Length;
        k := k + 1;
      }
      Untaken(t, n, tomb, a, k);
      return false, s;
    }
  }

  lemma StartSize()
    ensures PowerOfTwo(64)
  {
    assert PowerOfTwo(2) && PowerOfTwo(4) && PowerOfTwo(8) && PowerOfTwo(16) && PowerOfTwo(32);
  }

  lemma Doubled(n: nat)
    requires PowerOfTwo(n) && n > 0
    ensures PowerOfTwo(n * 2)
  {}

  lemma SpotIs(t: seq<int>, a: nat, s: nat, k: nat)
    requires Spot(t, a, s, k)
    ensures s < |t| && t[s] <= TOMB
  {}

  ghost predicate Ahead(t: seq<int>, a: nat) {
    |t| > 0 && exists k :: MeetsTomb(t, a, k)
  }

  ghost predicate MeetsTomb(t: seq<int>, a: nat, k: nat)
    requires |t| > 0
  {
    k < |t| && Path(t, EMPTY, Home(a, |t|), k) && t[At(Home(a, |t|), k, |t|)] == TOMB
  }

  lemma NothingIn(t: seq<int>, a: nat)
    requires |t| == 0
    ensures Members(t) == {} && !Ahead(t, a)
  {}

  lemma VainStarts(t: seq<int>, a: nat)
    requires |t| > 0
    ensures Vain(t, a, 0) && Home(a, |t|) == At(Home(a, |t|), 0, |t|)
  {}

  lemma VainOn(t: seq<int>, a: nat, k: nat)
    requires Vain(t, a, k) && k < |t|
    requires t[At(Home(a, |t|), k, |t|)] != EMPTY && t[At(Home(a, |t|), k, |t|)] != a
    ensures Vain(t, a, k + 1) && At(Home(a, |t|), k + 1, |t|) == (At(Home(a, |t|), k, |t|) + 1) % |t|
  {
    NextAt(Home(a, |t|), k, |t|);
  }

  lemma Taken(t: seq<int>, n: int, tomb: int, a: nat, s: nat, k: nat)
    requires Right(t, n, tomb) && Vain(t, a, k) && k < |t| && s == At(Home(a, |t|), k, |t|)
    requires t[s] == a && a != EMPTY
    ensures a == TOMB ==> Ahead(t, a) && t[s := TOMB] == t && a as int !in Members(t)
    ensures a != TOMB ==> a as int in Members(t) && Right(t[s := TOMB], n - 1, tomb + 1)
    ensures Members(t[s := TOMB]) == Members(t) - {a as int}
  {
    if a == TOMB {
      assert MeetsTomb(t, a, k);
      assert t[s := TOMB] == t;
    } else {
      Buried(t, s);
    }
  }

  lemma Untaken(t: seq<int>, n: int, tomb: int, a: nat, k: nat)
    requires Right(t, n, tomb) && Vain(t, a, k)
    requires k == |t| || t[At(Home(a, |t|), k, |t|)] == EMPTY
    ensures a as int !in Members(t) && (a == TOMB ==> !Ahead(t, a))
  {
    if a > TOMB { Absent(t, a, k); }
  }

  /* -------------------------------------------------------- an address that is not one */

  /** An address that comes and goes leaves a tombstone on the way of all that share its home. */
  lemma LeavesTomb(t: seq<int>, a: nat, s: nat, b: nat)
    requires Hashed(t) && s < |t| && t[s] == a && a > TOMB && Home(b, |t|) == Home(a, |t|)
    ensures Ahead(t[s := TOMB], b)
  {
    var k: nat :| Sits(t, t[s], k);
    assert Once(t) && At(Home(a, |t|), k, |t|) == s;
    assert MeetsTomb(t[s := TOMB], b, k);
  }

  /** 288 and 1 have one home in the first table.  After 288 came and went, 1 is reported as
   *  removed. */
  method OneIsTaken() returns (ok: bool)
    ensures ok
  {
    hide Right, Hashed, Members, Ahead, Home;
    var r := new Registry();
    RightIs(r.live[..], r.n, r.tomb);
    r.Insert(288);
    ghost var t := r.live[..];
    RightIs(t, r.n, r.tomb);
    var gone;
    ghost var s;
    gone, s := r.Remove(288);
    assert gone && r.live[..] == t[s := TOMB];
    HomeOf288();
    HomeOf1();
    LeavesTomb(t, 288, s, 1);
    ok, s := r.Remove(1);
  }

  lemma HomeOf288()
    ensures Home(288, 64) == 37
  {
    assert 288 * 0x9E3779B97F4A7C15 == 177 * 0x1_0000_0000_0000_0000 + 0xFE68F0AF33CB97A0;
    assert 0xFE68F0AF33CB97A0 == 0x7F34785799E5 * 0x2_0000 + 0x197A0;
    assert 0x7F34785799E5 == 0x1FCD1E15E67 * 64 + 37;
  }

  lemma HomeOf1()
    ensures Home(1, 64) == 37
  {
    assert 1 * 0x9E3779B97F4A7C15 == 0 * 0x1_0000_0000_0000_0000 + 0x9E3779B97F4A7C15;
    assert 0x9E3779B97F4A7C15 == 0x4F1BBCDCBFA5 * 0x2_0000 + 0x7C15;
    assert 0x4F1BBCDCBFA5 == 0x13C6EF372FE * 64 + 37;
  }
}
