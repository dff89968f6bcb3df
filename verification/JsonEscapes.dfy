/** What the escapes of a JSON string decode to (runtime/src/json.c): UTF-8, never longer than the
 *  source, and when surrogates pair as they should. */
module JsonEscapes {
  import opened Bytes
  import opened Utf8Bytes
  import opened JsonSyntax

  /* -------------------------------------------------------- UTF-8 */

  function Bits(c: Byte, mark: nat): int { c as int - mark }

  /** The code point that a well-formed sequence is. */
  function CodePoint(s: Text): int
    requires WellFormed(s)
  {
    match |s|
    case 1 => s[0] as int
    case 2 => Bits(s[0], 0xC0) * 64 + Bits(s[1], 0x80)
    case 3 => (Bits(s[0], 0xE0) * 64 + Bits(s[1], 0x80)) * 64 + Bits(s[2], 0x80)
    case _ => ((Bits(s[0], 0xF0) * 64 + Bits(s[1], 0x80)) * 64 + Bits(s[2], 0x80)) * 64 + Bits(s[3], 0x80)
  }

  /** put_utf8 writes the one well-formed sequence of its code point. */
  lemma Utf8Exact(r: nat, s: Text)
    requires r < 0x110000
    ensures WellFormed(s) && CodePoint(s) == r <==> s == Utf8(r)
  {
    Utf8Back(r);
    if WellFormed(s) && CodePoint(s) == r { Utf8Only(r, s); }
  }

  lemma Utf8Back(r: nat)
    requires r < 0x110000
    ensures WellFormed(Utf8(r)) && CodePoint(Utf8(r)) == r
  {
    var a, b, c := r / 64, r / 64 / 64, r / 64 / 64 / 64;
    assert r / 4096 == b && r / 262144 == c;
    assert r == a * 64 + r % 64 && a == b * 64 + a % 64 && b == c * 64 + b % 64;
  }

  lemma Utf8Only(r: nat, s: Text)
    requires r < 0x110000 && WellFormed(s) && CodePoint(s) == r
    ensures s == Utf8(r)
  {
    var n := |s|;
    if n == 2 {
      Digits64(Bits(s[0], 0xC0), Bits(s[1], 0x80));
    } else if n == 3 {
      Digits64(Bits(s[0], 0xE0), Bits(s[1], 0x80));
      Digits64(Bits(s[0], 0xE0) * 64 + Bits(s[1], 0x80), Bits(s[2], 0x80));
      assert r / 4096 == r / 64 / 64;
    } else if n == 4 {
      Digits64(Bits(s[0], 0xF0), Bits(s[1], 0x80));
      Digits64(Bits(s[0], 0xF0) * 64 + Bits(s[1], 0x80), Bits(s[2], 0x80));
      Digits64((Bits(s[0], 0xF0) * 64 + Bits(s[1], 0x80)) * 64 + Bits(s[2], 0x80), Bits(s[3], 0x80));
      assert r / 4096 == r / 64 / 64 && r / 262144 == r / 64 / 64 / 64;
    }
  }

  lemma Digits64(x: nat, y: nat)
    requires y < 64
    ensures (x * 64 + y) / 64 == x && (x * 64 + y) % 64 == y
  {}

  /* -------------------------------------------------------- never longer than the source */

  lemma {:induction false} DecodeShort(ps: seq<Piece>)
    requires ValidPieces(ps)
    ensures |Decode(ps)| <= |WritePieces(ps)|
    decreases |ps|
  {
    if ps != [] {
      if Pairs(ps) {
        DecodeShort(ps[2..]);
        assert ps[1..][0] == ps[1] && ps[1..][1..] == ps[2..];
        assert |WritePiece(ps[0])| == 6 && |WritePiece(ps[1])| == 6;
        assert |WritePieces(ps)| == 6 + |WritePieces(ps[1..])|;
      } else {
        DecodeShort(ps[1..]);
      }
    }
  }

  /* -------------------------------------------------------- surrogates */

  predicate HighAt(ps: seq<Piece>, i: nat) {
    i < |ps| && ps[i].Code? && IsHex(ps[i].h) && HighSurrogate(HexValue(ps[i].h))
  }

  predicate LowAt(ps: seq<Piece>, i: nat) {
    i < |ps| && ps[i].Code? && IsHex(ps[i].h) && LowSurrogate(HexValue(ps[i].h))
  }

  /** A high surrogate directly before a low one is a code point above U+FFFF, and each other
   *  surrogate is U+FFFD (RFC 8259, section 7). */
  function Standard(ps: seq<Piece>): Text
    requires ValidPieces(ps)
  {
    if ps == [] then []
    else if HighAt(ps, 0) && LowAt(ps, 1) then PairText(HexValue(ps[0].h), HexValue(ps[1].h)) + Standard(ps[2..])
    else PieceText(ps[0]) + Standard(ps[1..])
  }

  /** Going through the pieces as the decoder does, it comes to two high surrogates and a low one:
   *  the second is taken with the first, and the low one is left alone. */
  predicate Swallows(ps: seq<Piece>) {
    if ps == [] then false
    else if Pairs(ps) then (HighAt(ps, 1) && LowAt(ps, 2)) || Swallows(ps[2..])
    else Swallows(ps[1..])
  }

  lemma Cancel(x: Text, a: Text, b: Text)
    ensures x + a == x + b <==> a == b
  {
    if x + a == x + b {
      assert a == (x + a)[|x|..] && b == (x + b)[|x|..];
    }
  }

  /** Surrogates pair as they should exactly when no pair is torn apart like that. */
  lemma {:induction false} StandardExact(ps: seq<Piece>)
    requires ValidPieces(ps)
    ensures Decode(ps) == Standard(ps) <==> !Swallows(ps)
    decreases |ps|
  {
    if ps != [] {
      if !Pairs(ps) {
        StandardExact(ps[1..]);
        Cancel(PieceText(ps[0]), Decode(ps[1..]), Standard(ps[1..]));
      } else if HighAt(ps, 1) && LowAt(ps, 2) {
        Torn(ps);
      } else {
        var x := PairText(HexValue(ps[0].h), HexValue(ps[1].h));
        StandardExact(ps[2..]);
        Cancel(x, Decode(ps[2..]), Standard(ps[2..]));
        PairedAlike(ps);
      }
    }
  }

  /** The two readings go together over a high surrogate and the code after it. */
  lemma PairedAlike(ps: seq<Piece>)
    requires ValidPieces(ps) && Pairs(ps) && !(HighAt(ps, 1) && LowAt(ps, 2))
    ensures Standard(ps) == PairText(HexValue(ps[0].h), HexValue(ps[1].h)) + Standard(ps[2..])
  {
    hide *;
    if LowAt(ps, 1) {
      PairIsHigh(ps);
      PairStandard(ps);
    } else {
      PairRest(ps);
      var rest := ps[1..];
      NotPaired(ps);
      LoneThenStandard(ps);
      LoneThenStandard(rest);
      LoneTexts(ps);
      var a, b := PieceText(ps[0]), PieceText(ps[1]);
      assert a + (b + Standard(ps[2..])) == (a + b) + Standard(ps[2..]);
    }
  }

  lemma PairIsHigh(ps: seq<Piece>)
    requires Pairs(ps)
    ensures HighAt(ps, 0)
  {}

  lemma PairRest(ps: seq<Piece>)
    requires ValidPieces(ps) && Pairs(ps)
    ensures |ps| > 1 && ps[1..] != [] && ps[1..][0] == ps[1] && ps[1..][1..] == ps[2..]
    ensures ValidPieces(ps[1..]) && ValidPieces(ps[2..]) && ValidPiece(ps[0]) && ValidPiece(ps[1])
  {}

  lemma NotPaired(ps: seq<Piece>)
    requires |ps| > 1 && !(HighAt(ps, 1) && LowAt(ps, 2))
    ensures !(HighAt(ps[1..], 0) && LowAt(ps[1..], 1))
  {
    hide HexValue;
    var rest := ps[1..];
    assert rest[0] == ps[1] && (|rest| > 1 ==> rest[1] == ps[2]);
  }

  lemma LoneThenStandard(ps: seq<Piece>)
    requires ValidPieces(ps) && ps != [] && !(HighAt(ps, 0) && LowAt(ps, 1))
    ensures Standard(ps) == PieceText(ps[0]) + Standard(ps[1..])
  {
    hide PieceText;
  }

  lemma LoneTexts(ps: seq<Piece>)
    requires ValidPieces(ps) && Pairs(ps) && !LowAt(ps, 1)
    ensures PairText(HexValue(ps[0].h), HexValue(ps[1].h)) == PieceText(ps[0]) + PieceText(ps[1])
  {
    hide Utf8, HexValue;
  }

  lemma Torn(ps: seq<Piece>)
    requires ValidPieces(ps) && Pairs(ps) && HighAt(ps, 1) && LowAt(ps, 2)
    ensures Decode(ps) != Standard(ps)
  {
    hide Utf8, HexValue;
    var rest := ps[1..];
    assert rest[0] == ps[1] && rest[1] == ps[2];
    var f := Utf8(REPLACEMENT);
    var y := PairText(HexValue(ps[1].h), HexValue(ps[2].h));
    LoneThenStandard(ps);
    LoneTexts(ps);
    PairStandard(rest);
    FirstBytes(HexValue(ps[1].h), HexValue(ps[2].h));
    Differ(f, Decode(ps[2..]), y, Standard(rest[2..]));
  }

  lemma PairStandard(ps: seq<Piece>)
    requires ValidPieces(ps) && HighAt(ps, 0) && LowAt(ps, 1)
    ensures Standard(ps) == PairText(HexValue(ps[0].h), HexValue(ps[1].h)) + Standard(ps[2..])
  {
    hide PairText, HexValue;
  }

  lemma FirstBytes(hi: nat, lo: nat)
    requires HighSurrogate(hi) && LowSurrogate(lo)
    ensures Utf8(REPLACEMENT) == [0xEF, 0xBF, 0xBD] && PairText(hi, lo)[0] >= 0xF0 && PairText(hi, lo) != []
  {}

  lemma Differ(f: Text, d: Text, y: Text, e: Text)
    requires f == [0xEF, 0xBF, 0xBD] && y != [] && y[0] >= 0xF0
    ensures (f + f) + d != f + (y + e)
  {
    assert ((f + f) + d)[3] == 0xEF && (f + (y + e))[3] == y[0];
  }

  /** "\uD800\uD801\uDC00" */
  lemma PairTornApart()
    ensures var ps := [Code(HighText(0)), Code(HighText(1)), Code(LowText())];
      ValidPieces(ps) && Swallows(ps) && Decode(ps) != Standard(ps)
  {
    var ps := [Code(HighText(0)), Code(HighText(1)), Code(LowText())];
    assert HexValue(HighText(0)) == 0xD800 && HexValue(HighText(1)) == 0xD801 && HexValue(LowText()) == 0xDC00;
    StandardExact(ps);
  }

  function HighText(x: nat): Text
    requires x < 10
  {
    ['D' as int, '8' as int, DIGIT0, DIGIT0 + x]
  }

  function LowText(): Text { ['D' as int, 'C' as int, DIGIT0, DIGIT0] }
}
