/** What a digest of a message is (FIPS 180-4, sections 5.1.1, 5.1.2, 5.2.1, 5.2.2 and 6; RFC 1321,
 *  sections 3.1 to 3.5) and what HMAC is (RFC 2104, section 2), over any block function. */
module DigestMeaning {
  import opened Bytes

  datatype Alg = Md5 | Sha1 | Sha256 | Sha512

  const WORD := 0x1_0000_0000_0000_0000

  function Block(a: Alg): nat { if a.Sha512? then 128 else 64 }

  /** The bytes reserved for the length. */
  function LenField(a: Alg): nat { if a.Sha512? then 16 else 8 }

  /** The block functions, their initial states, and how a state is written out. */
  datatype Core<!S> = Core(start: S, compress: (S, Text) -> S, write: S -> Text)

  /** The block function folded over the blocks of m, in order. */
  function Fold<S>(c: Core<S>, bs: nat, h: S, m: Text): S
    requires bs > 0
    decreases |m|
  {
    if |m| < bs then h else Fold(c, bs, c.compress(h, m[..bs]), m[bs..])
  }

  function Byteval(x: nat): Byte { x % 256 }

  /** x in n bytes, least significant first. */
  function Little(x: nat, n: nat): (s: Text)
    ensures |s| == n
  {
    if n == 0 then [] else [Byteval(x)] + Little(x / 256, n - 1)
  }

  /** x in n bytes, most significant first. */
  function Big(x: nat, n: nat): (s: Text)
    ensures |s| == n
  {
    if n == 0 then [] else Big(x / 256, n - 1) + [Byteval(x)]
  }

  function Zeros(n: nat): (s: Text)
    ensures |s| == n && forall i | 0 <= i < n :: s[i] == 0
  {
    seq(n, _ => 0)
  }

  /** The fewest zeros that leave room for exactly the length. */
  ghost predicate Fills(a: Alg, len: nat, k: nat) {
    (len + 1 + k + LenField(a)) % Block(a) == 0
  }

  ghost predicate NoneFills(a: Alg, len: nat, k: nat) {
    forall j: nat | j < k :: !Fills(a, len, j)
  }

  ghost predicate Least(a: Alg, len: nat, k: nat) {
    Fills(a, len, k) && NoneFills(a, len, k)
  }

  function Length(a: Alg, bits: nat): (s: Text)
    ensures |s| == LenField(a)
  {
    if a.Md5? then Little(bits, 8) else Big(bits, LenField(a))
  }

  /** m followed by 0x80, the fewest zeros that do, and `bits` as the length: whole blocks. */
  ghost predicate Padded(a: Alg, m: Text, bits: nat, p: Text) {
    exists k: nat :: Least(a, |m|, k) && p == m + [0x80] + Zeros(k) + Length(a, bits)
  }

  /** The digest of m: the block function over m padded with its length in bits. */
  ghost predicate IsDigest<S>(c: Core<S>, a: Alg, m: Text, d: Text) {
    exists p :: Padded(a, m, 8 * |m|, p) && d == c.write(Fold(c, Block(a), c.start, p))
  }

  lemma OnePadding(a: Alg, m: Text, bits: nat, p: Text, q: Text)
    requires Padded(a, m, bits, p) && Padded(a, m, bits, q)
    ensures p == q
  {
    var j: nat :| Least(a, |m|, j) && p == m + [0x80] + Zeros(j) + Length(a, bits);
    var k: nat :| Least(a, |m|, k) && q == m + [0x80] + Zeros(k) + Length(a, bits);
    assert !(j < k) && !(k < j);
  }

  /** A message has one digest. */
  lemma OneDigest<S>(c: Core<S>, a: Alg, m: Text, d: Text, e: Text)
    requires IsDigest(c, a, m, d) && IsDigest(c, a, m, e)
    ensures d == e
  {
    var p :| Padded(a, m, 8 * |m|, p) && d == c.write(Fold(c, Block(a), c.start, p));
    var q :| Padded(a, m, 8 * |m|, q) && e == c.write(Fold(c, Block(a), c.start, q));
    OnePadding(a, m, 8 * |m|, p, q);
  }

  /** Whole blocks first, and then the rest. */
  lemma {:induction false} FoldAppend<S>(c: Core<S>, bs: nat, h: S, x: Text, y: Text)
    requires (bs == 64 || bs == 128) && |x| % bs == 0
    ensures Fold(c, bs, h, x + y) == Fold(c, bs, Fold(c, bs, h, x), y)
    decreases |x|
  {
    if |x| == 0 {
      assert x + y == y;
    } else {
      assert (x + y)[..bs] == x[..bs] && (x + y)[bs..] == x[bs..] + y;
      FoldAppend(c, bs, c.compress(h, x[..bs]), x[bs..], y);
    }
  }

  /** One block. */
  lemma FoldOne<S>(c: Core<S>, bs: nat, h: S, b: Text)
    requires bs > 0 && |b| == bs
    ensures Fold(c, bs, h, b) == c.compress(h, b)
  {
    assert b[..bs] == b && |b[bs..]| == 0;
  }

  /* -------------------------------------------------------- HMAC */

  function Xor(k: Text, x: Byte): (s: Text)
    ensures |s| == |k|
  {
    seq(|k|, i requires 0 <= i < |k| => ((k[i] as bv8) ^ (x as bv8)) as int)
  }

  /** The key as a block: hashed first if it is longer than one. */
  ghost predicate KeyBlock<S>(c: Core<S>, a: Alg, key: Text, k: Text) {
    if |key| > Block(a) then exists d :: IsDigest(c, a, key, d) && |d| <= Block(a) && k == d + Zeros(Block(a) - |d|)
    else k == key + Zeros(Block(a) - |key|)
  }

  /** H((K ^ opad) H((K ^ ipad) text)). */
  ghost predicate IsHmac<S>(c: Core<S>, a: Alg, key: Text, text: Text, mac: Text) {
    exists k, inner ::
      KeyBlock(c, a, key, k) && IsDigest(c, a, Xor(k, 0x36) + text, inner)
      && IsDigest(c, a, Xor(k, 0x5c) + inner, mac)
  }
}
