/** The padding of each digest in numbers, and one message padded. */
module DigestTables {
  import opened Bytes
  import opened DigestMeaning
  import opened DigestDriver

  /** What bytes stand for, the first the most significant. */
  function Number(s: Text): nat {
    if s == [] then 0 else 256 * Number(s[..|s| - 1]) + s[|s| - 1]
  }

  function Reversed(s: Text): (r: Text)
    ensures |r| == |s|
  {
    if s == [] then [] else Reversed(s[1..]) + [s[0]]
  }

  lemma {:induction false} BigIs(x: nat, n: nat)
    requires x < Pow256(n)
    ensures Number(Big(x, n)) == x
  {
    if n > 0 {
      BigIs(x / 256, n - 1);
      assert Big(x, n)[..n - 1] == Big(x / 256, n - 1);
    }
  }

  lemma {:induction false} LittleIs(x: nat, n: nat)
    requires x < Pow256(n)
    ensures Number(Reversed(Little(x, n))) == x
  {
    if n > 0 {
      LittleIs(x / 256, n - 1);
      var s := Little(x, n);
      assert s[1..] == Little(x / 256, n - 1);
      assert Reversed(s)[..n - 1] == Reversed(s[1..]);
    }
  }

  lemma {:induction false} PowerGrows(m: nat, n: nat)
    requires m <= n
    ensures Pow256(m) <= Pow256(n)
    decreases n
  {
    if m < n { PowerGrows(m, n - 1); }
  }

  /** The bytes of a block, and of the length in it: 64 and 8, but for SHA-512 128 and 16. */
  function BlockBytes(a: Alg): nat {
    match a
    case Md5 => 64
    case Sha1 => 64
    case Sha256 => 64
    case Sha512 => 128
  }

  /** A message is followed by 0x80, and by the fewest zeros that make it, with the length, whole
   *  blocks; the length stands at the end, in MD5 its least significant byte first. */
  lemma PaddedExact(a: Alg, m: Text, bits: nat, p: Text)
    requires Padded(a, m, bits, p) && bits < WORD
    ensures var n := BlockBytes(a) / 8;
      && |p| % BlockBytes(a) == 0 && |m| + 1 + n <= |p| < |m| + 1 + n + BlockBytes(a)
      && p[..|m|] == m && p[|m|] == 128 && (forall i | |m| < i < |p| - n :: p[i] == 0)
      && Number(if a.Md5? then Reversed(p[|p| - n..]) else p[|p| - n..]) == bits
  {
    hide Big, Little, Number, Reversed, Length;
    var n := BlockBytes(a) / 8;
    var k: nat :| Least(a, |m|, k) && p == m + [0x80] + Zeros(k) + Length(a, bits);
    LengthIs(a, bits);
    FewestZeros(a, |m|, k);
    assert |m| + 1 + k + n == |p| && |p| % BlockBytes(a) == 0;
    hide Least;
    Parts(m, [0x80], Zeros(k), Length(a, bits), p);
  }

  lemma Parts(m: Text, b: Text, z: Text, l: Text, p: Text)
    requires p == m + b + z + l && |b| == 1
    ensures p[..|m|] == m && p[|m|] == b[0] && p[|p| - |l|..] == l
    ensures forall i | |m| < i < |p| - |l| :: p[i] == z[i - |m| - 1]
  {}

  lemma LengthIs(a: Alg, bits: nat)
    requires bits < WORD
    ensures |Length(a, bits)| == BlockBytes(a) / 8
    ensures Number(if a.Md5? then Reversed(Length(a, bits)) else Length(a, bits)) == bits
  {
    hide Big, Little, Number, Reversed, Pow256;
    WordIs();
    PowerGrows(8, BlockBytes(a) / 8);
    if a.Md5? { LittleIs(bits, 8); } else { BigIs(bits, BlockBytes(a) / 8); }
  }

  lemma FewestZeros(a: Alg, len: nat, k: nat)
    requires Least(a, len, k)
    ensures k < BlockBytes(a)
  {
    if k >= BlockBytes(a) {
      var j := k - BlockBytes(a);
      assert (len + 1 + j + LenField(a)) % Block(a) == 0 by { OneBlockLess(len + 1 + k + LenField(a), Block(a)); }
      assert Fills(a, len, j);
    }
  }

  lemma OneBlockLess(x: nat, b: nat)
    requires (b == 64 || b == 128) && x >= b && x % b == 0
    ensures (x - b) % b == 0
  {}

  /** HMAC (RFC 2104): each byte of the key block with 0x36 inside and with 0x5C outside. */
  lemma XorIs(k: Text, x: Byte, i: nat)
    requires i < |k|
    ensures |Xor(k, x)| == |k| && Xor(k, x)[i] as bv8 == (k[i] as bv8) ^ (x as bv8)
  {}
}
