/** The streaming driver of the digests and HMAC (runtime/src/crypto.c): buffering, padding and
 *  composition, whatever the block functions. */
module DigestDriver {
  import opened Bytes
  import opened DigestMeaning

  /** h has the whole blocks of m folded in, and nothing is left over. */
  ghost predicate Even<S>(c: Core<S>, bs: nat, m: Text, h: S) {
    bs > 0 && |m| % bs == 0 && h == Fold(c, bs, c.start, m)
  }

  /** h has all of m but `rest`, less than a block. */
  ghost predicate Held<S>(c: Core<S>, bs: nat, m: Text, h: S, rest: Text) {
    |rest| < bs && |rest| <= |m| && rest == m[|m| - |rest|..] && Even(c, bs, m[..|m| - |rest|], h)
  }

  class Ctx<S> {
    const core: Core<S>
    const alg: Alg
    var len: nat
    var nbuf: nat
    const buf: array<Byte>
    var h: S

    /** m has been absorbed: its whole blocks are folded in, and the buffer holds the rest. */
    ghost predicate Absorbed(m: Text)
      reads this, buf
    {
      && buf.Length == 128 && nbuf < Block(alg) && len == |m| % WORD
      && Held(core, Block(alg), m, h, buf[..nbuf])
    }

    /** cry_init. */
    constructor (core: Core<S>, alg: Alg)
      ensures Absorbed([]) && this.core == core && this.alg == alg && fresh(buf)
    {
      this.core, this.alg, len, nbuf, h := core, alg, 0, 0, core.start;
      buf := new Byte[128](_ => 0);
    }

    /** cry_update: a part of the message, of any length. */
    method Update(p: Text, ghost m: Text)
      requires Absorbed(m)
      modifies this`len, this`nbuf, this`h, buf
      ensures Absorbed(m + p)
    {
      hide Held, Even;
      var bs := Block(alg);
      var i: nat := 0;
      len := (len + |p|) % WORD;
      LenAdds(|m|, |p|);
      ghost var rest := buf[..nbuf];
      if nbuf > 0 {
        var want := if bs - nbuf > |p| then |p| else bs - nbuf;
        Copy(nbuf, p[..want]);
        nbuf := nbuf + want;
        i := want;
        if nbuf < bs {
          assert p[..want] == p;
          HeldMore(core, bs, m, h, rest, p);
          return;
        }
        HeldFull(core, bs, m, h, rest, p, want);
        h := core.compress(h, buf[..bs]);
        nbuf := 0;
      } else {
        HeldNone(core, bs, m, h, rest, p);
      }
      while |p| - i >= bs
        invariant i <= |p| && nbuf == 0 && Even(core, bs, m + p[..i], h)
        invariant len == |m + p| % WORD
      {
        EvenOn(core, bs, m, p, i, h);
        h := core.compress(h, p[i..i + bs]);
        i := i + bs;
      }
      HeldRest(core, bs, m, p, i, h);
      if i < |p| {
        Copy(0, p[i..]);
        nbuf := |p| - i;
      }
      assert buf[..nbuf] == p[i..];
    }

    /** memcpy into the buffer. */
    method Copy(at: nat, p: Text)
      requires at + |p| <= buf.Length
      modifies buf
      ensures buf[..at] == old(buf[..at]) && buf[at..at + |p|] == p
      ensures buf[..at + |p|] == old(buf[..at]) + p
    {
      for i := 0 to |p|
        invariant buf[..at] == old(buf[..at]) && buf[at..at + i] == p[..i]
      {
        buf[at + i] := p[i];
        assert p[..i + 1] == p[..i] + [p[i]];
      }
      assert p[..|p|] == p;
      assert buf[..at + |p|] == buf[..at] + buf[at..at + |p|];
    }

    /** cry_final: the padding goes in as one more part, and the state is written out. */
    method Final(ghost m: Text) returns (out: Text)
      requires Absorbed(m)
      modifies this`len, this`nbuf, this`h, buf
      ensures nbuf == 0 && Finished(core, alg, m, (8 * |m|) % WORD, out)
    {
      hide Held, Fills, Least, Big, Little;
      var bs, field := Block(alg), LenField(alg);
      var bits := (len * 8) % WORD;
      BitsOf(|m|);
      var pad: Text := [0x80];
      ghost var k: nat := 0;
      while (nbuf + |pad| + field) % bs != 0
        invariant Absorbed(m) && nbuf == old(nbuf) && len == old(len)
        invariant pad == [0x80] + Zeros(k) && |pad| == 1 + k && k < bs && NoneFills(alg, nbuf, k)
        decreases bs - k
      {
        NotYet(alg, nbuf, k);
        pad := pad + [0];
        k := k + 1;
        assert Zeros(k - 1) + [0] == Zeros(k);
      }
      Enough(alg, nbuf, k);
      HeldLeast(core, alg, m, h, buf[..nbuf], k);
      if alg.Md5? {
        pad := pad + Little(bits, 8);
      } else {
        if field == 16 { pad := pad + Zeros(8); }
        pad := pad + Big(bits, 8);
        HighHalf(bits);
      }
      assert pad == [0x80] + Zeros(k) + Length(alg, bits);
      assert |pad| <= 2 * 128;
      Update(pad, m);
      PaddedEven(core, alg, m, bits, k, pad, h, buf[..nbuf]);
      out := core.write(h);
    }
  }

  /** cry_hash: one message, one digest. */
  method Hash<S>(core: Core<S>, alg: Alg, p: Text) returns (out: Text)
    ensures Finished(core, alg, p, (8 * |p|) % WORD, out)
    ensures !alg.Sha512? || 8 * |p| < 0x1_0000_0000_0000_0000 ==> IsDigest(core, alg, p, out)
  {
    var c := new Ctx(core, alg);
    c.Update(p, []);
    assert [] + p == p;
    out := c.Final(p);
    ShortDigest(core, alg, p, out);
  }

  /** Cut into parts, however many and of whatever lengths, a message has the same digest. */
  method HashParts<S>(core: Core<S>, alg: Alg, parts: seq<Text>) returns (out: Text)
    ensures Finished(core, alg, Joined(parts), (8 * |Joined(parts)|) % WORD, out)
    ensures !alg.Sha512? || 8 * |Joined(parts)| < 0x1_0000_0000_0000_0000 ==> IsDigest(core, alg, Joined(parts), out)
  {
    var c := new Ctx(core, alg);
    for i := 0 to |parts|
      invariant c.core == core && c.alg == alg && fresh(c) && fresh(c.buf) && c.Absorbed(Joined(parts[..i]))
    {
      c.Update(parts[i], Joined(parts[..i]));
      assert parts[..i + 1][..i] == parts[..i];
    }
    assert parts[..|parts|] == parts;
    out := c.Final(Joined(parts));
    ShortDigest(core, alg, Joined(parts), out);
  }

  function Joined(parts: seq<Text>): Text {
    if parts == [] then [] else Joined(parts[..|parts| - 1]) + parts[|parts| - 1]
  }

  /** cry_hmac: the key as a block, and two digests, the inner one of the message fed through. */
  method Hmac<S(!new)>(core: Core<S>, alg: Alg, key: Text, msg: Text) returns (out: Text)
    requires forall s :: |core.write(s)| <= Block(alg)
    ensures !alg.Sha512? || (8 * |key| < 0x1_0000_0000_0000_0000 && 8 * (128 + |msg|) < 0x1_0000_0000_0000_0000)
      ==> IsHmac(core, alg, key, msg, out)
  {
    hide IsDigest, Finished;
    var bs := Block(alg);
    var k: Text;
    if |key| > bs {
      var d := Hash(core, alg, key);
      Short(core, alg, key, d);
      k := d + Zeros(bs - |d|);
    } else {
      k := key + Zeros(bs - |key|);
    }
    var inner := Keyed(core, alg, Xor(k, 0x36), msg);
    Short(core, alg, Xor(k, 0x36) + msg, inner);
    out := Keyed(core, alg, Xor(k, 0x5c), inner);
    if Exact(alg, |key|) && Exact(alg, bs + |msg|) {
      assert KeyBlock(core, alg, key, k);
      assert IsDigest(core, alg, Xor(k, 0x36) + msg, inner);
    }
  }

  /** A pad of one block and a message, absorbed in turn. */
  method Keyed<S>(core: Core<S>, alg: Alg, pad: Text, msg: Text) returns (out: Text)
    requires |pad| == Block(alg)
    ensures Finished(core, alg, pad + msg, (8 * |pad + msg|) % WORD, out)
    ensures Exact(alg, |pad + msg|) ==> IsDigest(core, alg, pad + msg, out)
  {
    var c := new Ctx(core, alg);
    c.Update(pad, []);
    assert [] + pad == pad;
    c.Update(msg, pad);
    out := c.Final(pad + msg);
    ShortDigest(core, alg, pad + msg, out);
  }

  /** out is the digest of m, its length taken to be `bits`. */
  ghost predicate Finished<S>(c: Core<S>, a: Alg, m: Text, bits: nat, out: Text) {
    exists p :: Padded(a, m, bits, p) && out == c.write(Fold(c, Block(a), c.start, p))
  }

  /** The length written is the length: all of it below 2^61 bytes, and its low 64 bits are all
   *  that there is room for but in SHA-512. */
  predicate Exact(a: Alg, len: nat) { !a.Sha512? || 8 * len < WORD }

  lemma ShortDigest<S>(c: Core<S>, a: Alg, m: Text, out: Text)
    requires Finished(c, a, m, (8 * |m|) % WORD, out)
    ensures Exact(a, |m|) ==> IsDigest(c, a, m, out)
  {
    hide Padded, Fold, IsDigest;
    if Exact(a, |m|) {
      var p :| Padded(a, m, (8 * |m|) % WORD, p) && out == c.write(Fold(c, Block(a), c.start, p));
      SamePadding(a, m, p);
      DigestIs(c, a, m, p);
    }
  }

  lemma DigestIs<S>(c: Core<S>, a: Alg, m: Text, p: Text)
    requires Padded(a, m, 8 * |m|, p)
    ensures IsDigest(c, a, m, c.write(Fold(c, Block(a), c.start, p)))
  {}

  lemma SamePadding(a: Alg, m: Text, p: Text)
    requires Exact(a, |m|) && Padded(a, m, (8 * |m|) % WORD, p)
    ensures Padded(a, m, 8 * |m|, p)
  {
    LengthKept(a, 8 * |m|);
  }

  lemma Short<S(!new)>(c: Core<S>, a: Alg, m: Text, out: Text)
    requires Finished(c, a, m, (8 * |m|) % WORD, out) && forall s :: |c.write(s)| <= Block(a)
    ensures |out| <= Block(a)
  {}

  /* -------------------------------------------------------- the parts of the proof */

  lemma LenAdds(m: nat, p: nat)
    ensures (m % WORD + p) % WORD == (m + p) % WORD
  {}

  lemma BitsOf(m: nat)
    ensures ((m % WORD) * 8) % WORD == (8 * m) % WORD
  {}

  lemma HeldMore<S>(c: Core<S>, bs: nat, m: Text, h: S, rest: Text, p: Text)
    requires Held(c, bs, m, h, rest) && |rest| + |p| < bs
    ensures Held(c, bs, m + p, h, rest + p)
  {
    assert (m + p)[..|m + p| - (|rest| + |p|)] == m[..|m| - |rest|];
  }

  lemma HeldNone<S>(c: Core<S>, bs: nat, m: Text, h: S, rest: Text, p: Text)
    requires Held(c, bs, m, h, rest) && rest == []
    ensures Even(c, bs, m + p[..0], h)
  {
    assert m[..|m|] == m && m + p[..0] == m;
  }

  lemma HeldFull<S>(c: Core<S>, bs: nat, m: Text, h: S, rest: Text, p: Text, want: nat)
    requires (bs == 64 || bs == 128) && Held(c, bs, m, h, rest) && want <= |p| && |rest| + want == bs
    ensures Even(c, bs, m + p[..want], c.compress(h, rest + p[..want]))
  {
    var b := rest + p[..want];
    assert m + p[..want] == m[..|m| - |rest|] + b;
    FoldAppend(c, bs, c.start, m[..|m| - |rest|], b);
    FoldOne(c, bs, h, b);
  }

  lemma EvenOn<S>(c: Core<S>, bs: nat, m: Text, p: Text, i: nat, h: S)
    requires (bs == 64 || bs == 128) && i + bs <= |p| && Even(c, bs, m + p[..i], h)
    ensures Even(c, bs, m + p[..i + bs], c.compress(h, p[i..i + bs]))
  {
    assert m + p[..i + bs] == (m + p[..i]) + p[i..i + bs];
    FoldAppend(c, bs, c.start, m + p[..i], p[i..i + bs]);
    FoldOne(c, bs, h, p[i..i + bs]);
  }

  lemma HeldRest<S>(c: Core<S>, bs: nat, m: Text, p: Text, i: nat, h: S)
    requires i <= |p| && |p| - i < bs && Even(c, bs, m + p[..i], h)
    ensures Held(c, bs, m + p, h, p[i..])
  {
    assert (m + p)[..|m + p| - (|p| - i)] == m + p[..i];
  }

  /** Of bs numbers in a row, one is a multiple of bs. */
  lemma Comes(c: nat, bs: nat) returns (j: nat)
    requires bs == 64 || bs == 128
    ensures j < bs && (c + j) % bs == 0
  {
    j := (bs - c % bs) % bs;
  }

  lemma NotYet(a: Alg, nbuf: nat, k: nat)
    requires k < Block(a) && (nbuf + (1 + k) + LenField(a)) % Block(a) != 0 && NoneFills(a, nbuf, k)
    ensures NoneFills(a, nbuf, k + 1) && k + 1 < Block(a)
  {
    var j := Comes(nbuf + 1 + LenField(a), Block(a));
    assert Fills(a, nbuf, j);
    assert j > k;
  }

  lemma Enough(a: Alg, nbuf: nat, k: nat)
    requires (nbuf + (1 + k) + LenField(a)) % Block(a) == 0 && NoneFills(a, nbuf, k)
    ensures Least(a, nbuf, k)
  {}

  lemma SameRest(bs: nat, x: nat, y: nat)
    requires (bs == 64 || bs == 128) && x % bs == 0
    ensures (x + y) % bs == y % bs
  {}

  lemma HeldLeast<S>(c: Core<S>, a: Alg, m: Text, h: S, rest: Text, k: nat)
    requires Held(c, Block(a), m, h, rest) && Least(a, |rest|, k)
    ensures Least(a, |m|, k)
  {
    forall j: nat ensures Fills(a, |m|, j) <==> Fills(a, |rest|, j) {
      SameRest(Block(a), |m| - |rest|, |rest| + 1 + j + LenField(a));
    }
  }

  lemma PaddedEven<S>(c: Core<S>, a: Alg, m: Text, bits: nat, k: nat, pad: Text, h: S, rest: Text)
    requires Least(a, |m|, k) && pad == [0x80] + Zeros(k) + Length(a, bits) && Held(c, Block(a), m + pad, h, rest)
    ensures rest == [] && Finished(c, a, m, bits, c.write(h))
  {
    var p := m + pad;
    assert p == m + [0x80] + Zeros(k) + Length(a, bits);
    NothingLeft(|p|, |rest|, Block(a));
    assert p[..|p|] == p;
    assert Padded(a, m, bits, p);
  }

  lemma NothingLeft(n: nat, nbuf: nat, bs: nat)
    requires (bs == 64 || bs == 128) && n % bs == 0 && nbuf < bs && nbuf <= n && (n - nbuf) % bs == 0
    ensures nbuf == 0
  {}

  function Pow256(n: nat): (p: nat)
    ensures p > 0
  {
    if n == 0 then 1 else 256 * Pow256(n - 1)
  }

  /** A number of n bytes in n + j: j zeros first. */
  lemma {:induction false} BigHigh(x: nat, n: nat, j: nat)
    requires x < Pow256(n)
    ensures Big(x, n + j) == Zeros(j) + Big(x, n)
    decreases n + j
  {
    if n > 0 {
      BigHigh(x / 256, n - 1, j);
      assert Zeros(j) + (Big(x / 256, n - 1) + [Byteval(x)]) == (Zeros(j) + Big(x / 256, n - 1)) + [Byteval(x)];
    } else if j > 0 {
      BigHigh(x, 0, j - 1);
      assert Zeros(j - 1) + [0] == Zeros(j);
    }
  }

  lemma WordIs()
    ensures Pow256(8) == WORD
  {
    assert Pow256(2) == 0x1_0000;
    assert Pow256(4) == 0x1_0000_0000;
    assert Pow256(6) == 0x1_0000_0000_0000;
  }

  lemma NoWrap(x: nat, n: nat)
    requires x < n
    ensures x % n == x
  {}

  /* -------------------------------------------------------- lengths that wrap round */

  lemma Quotient(q: nat, p: nat, s: nat)
    requires s < p
    ensures (p * q + s) % p == s
  {
    var x := p * q + s;
    var d, e := x / p, x % p;
    assert x == p * d + e;
    if d < q { Less(d, q, p); }
    if q < d { Less(q, d, p); }
  }

  lemma Less(d: nat, q: nat, p: nat)
    requires d < q
    ensures p * d + p <= p * q
    decreases q
  {
    Once(p, q - 1);
    if q > d + 1 { Less(d, q - 1, p); }
  }

  lemma Once(p: nat, q: nat)
    ensures p * (q + 1) == p * q + p
  {}

  /** n bytes have the low part of a number only. */
  lemma {:induction false} LittleLow(x: nat, n: nat)
    ensures Little(x % Pow256(n), n) == Little(x, n) && Big(x % Pow256(n), n) == Big(x, n)
  {
    if n > 0 {
      LowByte(x, Pow256(n - 1));
      LittleLow(x / 256, n - 1);
    }
  }

  lemma LowByte(x: nat, p: nat)
    requires p > 0
    ensures (x % (256 * p)) % 256 == x % 256 && (x % (256 * p)) / 256 == (x / 256) % p
  {
    var q, r := x / (256 * p), x % (256 * p);
    assert x == (256 * p) * q + r;
    var y := p * q;
    assert (256 * p) * q == 256 * y;
    assert r / 256 < p;
    Quotient(q, p, r / 256);
  }

  /** Different numbers of n bytes differ. */
  lemma {:induction false} BigOne(x: nat, y: nat, n: nat)
    requires x < Pow256(n) && y < Pow256(n) && Big(x, n) == Big(y, n)
    ensures x == y
  {
    if n > 0 {
      var u, v := Big(x / 256, n - 1), Big(y / 256, n - 1);
      assert (u + [Byteval(x)])[..n - 1] == u && (v + [Byteval(y)])[..n - 1] == v;
      assert (u + [Byteval(x)])[n - 1] == (v + [Byteval(y)])[n - 1];
      BigOne(x / 256, y / 256, n - 1);
    }
  }

  lemma LengthKept(a: Alg, bits: nat)
    requires !a.Sha512? || bits < WORD
    ensures Length(a, bits % WORD) == Length(a, bits)
  {
    if a.Sha512? {
      NoWrap(bits, WORD);
    } else {
      WordIs();
      LittleLow(bits, 8);
    }
  }

  /** The length written is right exactly when it does not wrap round, or has no room to show. */
  lemma LengthExact(a: Alg, bits: nat)
    requires bits < WORD * WORD
    ensures Length(a, bits % WORD) == Length(a, bits) <==> !a.Sha512? || bits < WORD
  {
    if !a.Sha512? || bits < WORD {
      LengthKept(a, bits);
    } else if Length(a, bits % WORD) == Length(a, bits) {
      WordIs();
      Pow16();
      BigOne(bits % WORD, bits, 16);
    }
  }

  lemma Pow16()
    ensures Pow256(16) == WORD * WORD
  {
    WordIs();
    assert Pow256(10) == 0x1_0000 * WORD;
    assert Pow256(12) == 0x1_0000_0000 * WORD;
    assert Pow256(14) == 0x1_0000_0000_0000 * WORD;
  }

  /** A length below 2^64 in 16 bytes: eight zeros, and then it in 8. */
  lemma HighHalf(x: nat)
    requires x < WORD
    ensures Big(x, 16) == Zeros(8) + Big(x, 8)
  {
    WordIs();
    BigHigh(x, 8, 8);
  }
}
