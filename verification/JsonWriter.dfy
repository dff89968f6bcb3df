/** The encoder of runtime/src/json.c, and that decoding what it writes gives the value back. */
module JsonWriter {
  import opened Options
  import opened Bytes
  import opened AssocList
  import opened DecimalDigits
  import opened DecimalOps
  import opened DecimalText
  import opened JsonSyntax
  import opened JsonGrammar
  import opened JsonParse
  import opened JsonReader

  const PAD_SIZE := 1040

  /** Values built from nil, bools, 64-bit integers, strings, slices, and maps with no key twice. */
  predicate Encodable(v: Json) {
    match v
    case Int(n) => MIN_INT <= n <= MAX_INT
    case Decimal(_) => false
    case Slice(es) => forall e | e in es :: Encodable(e)
    case Map(ms) => DistinctKeys(ms) && forall m | m in ms :: Encodable(m.val)
    case _ => true
  }

  predicate DistinctKeys(ms: seq<Pair<Text, Json>>) {
    forall i, j | 0 <= i < |ms| && 0 <= j < |ms| && i != j :: ms[i].key != ms[j].key
  }

  /** Levels of nesting. */
  function Levels(v: Json): (d: nat)
    ensures d > 0
  {
    match v
    case Slice(es) => 1 + SliceLevels(es)
    case Map(ms) => 1 + MapLevels(ms)
    case _ => 1
  }

  function SliceLevels(es: seq<Json>): nat {
    if es == [] then 0 else Max(Levels(es[0]), SliceLevels(es[1..]))
  }

  function MapLevels(ms: seq<Pair<Text, Json>>): nat {
    if ms == [] then 0
    else
      var Pair(_, v) := ms[0];
      assert v < ms[0];
      Max(Levels(v), MapLevels(ms[1..]))
  }

  /* -------------------------------------------------------- what is written for a value */

  function HexChar(x: nat): Byte
    requires x < 16
  {
    if x < 10 then DIGIT0 + x else 'a' as int + (x - 10)
  }

  /** \\u and four hex digits, for a control character. */
  function CodeOf(c: Byte): Piece
    requires c < 0x20
  {
    Code([DIGIT0, DIGIT0, HexChar(c / 16), HexChar(c % 16)])
  }

  function PieceOf(c: Byte): Piece {
    if c == QUOTE || c == BACKSLASH then Short(c)
    else if c == 10 then Short('n' as int)
    else if c == 9 then Short('t' as int)
    else if c == 13 then Short('r' as int)
    else if c == 8 then Short('b' as int)
    else if c == 12 then Short('f' as int)
    else if c < 0x20 then CodeOf(c)
    else Plain(c)
  }

  function PiecesOf(s: Text): (ps: seq<Piece>)
    ensures |ps| == |s|
  {
    if s == [] then [] else [PieceOf(s[0])] + PiecesOf(s[1..])
  }

  function NumOf(n: int): Num { Num(n < 0, Chars(DigitString(if n < 0 then -n else n)), [], NoExp) }

  function Break(indent: Text): Text { if indent == [] then [] else [NEWLINE] }
  function Gap(indent: Text): Text { if indent == [] then [] else [SPACE] }

  function Spelling(v: Json, indent: Text, cur: Text): Syntax
    requires Encodable(v)
    decreases v, 1
  {
    match v
    case Nil => Null
    case Bool(b) => if b then True else False
    case Int(n) => Number(NumOf(n))
    case Str(s) => String(PiecesOf(s))
    case Slice(es) => if es == [] then EmptyArray([]) else Array(SpellItems(es, indent, cur))
    case Map(ms) => if ms == [] then EmptyObject([]) else Object(SpellMembers(ms, indent, cur))
  }

  function SpellItems(es: seq<Json>, indent: Text, cur: Text): Items
    requires es != [] && forall e | e in es :: Encodable(e)
    decreases es, 0
  {
    var pad := cur + indent;
    var v := Spelling(es[0], indent, pad);
    if |es| == 1 then LastItem(Break(indent) + pad, v, Break(indent) + cur)
    else Item(Break(indent) + pad, v, [], SpellItems(es[1..], indent, cur))
  }

  function SpellMembers(ms: seq<Pair<Text, Json>>, indent: Text, cur: Text): Members
    requires ms != [] && forall m | m in ms :: Encodable(m.val)
    decreases ms, 0
  {
    var pad := cur + indent;
    var Pair(k, e) := ms[0];
    assert e < ms[0];
    var v := Spelling(e, indent, pad);
    var key := PiecesOf(k);
    if |ms| == 1 then LastMember(Break(indent) + pad, key, [], Gap(indent), v, Break(indent) + cur)
    else Member(Break(indent) + pad, key, [], Gap(indent), v, [], SpellMembers(ms[1..], indent, cur))
  }

  /* -------------------------------------------------------- it is valid, and means the value */

  lemma {:induction false} LeanDigits(n: nat)
    ensures var ds := DigitString(n);
      |ds| > 1 ==> ds[0] != 0
  {
    if n >= 10 {
      LeanDigits(n / 10);
      var ds := DigitString(n / 10);
      assert DigitString(n)[0] == ds[0];
      if |ds| == 1 { OneDigit(n / 10); }
    }
  }

  lemma OneDigit(n: nat)
    requires n > 0 && |DigitString(n)| == 1
    ensures DigitString(n)[0] != 0
  {
    ValOne(DigitString(n)[0]);
    assert DigitString(n) == [DigitString(n)[0]];
  }

  lemma NumberMeans(n: int)
    requires MIN_INT <= n <= MAX_INT
    ensures ValidNum(NumOf(n)) && NumValue(NumOf(n)) == Some(Int(n))
  {
    LeanDigits(if n < 0 then -n else n);
  }

  lemma PieceMeans(c: Byte)
    ensures ValidPiece(PieceOf(c)) && PieceText(PieceOf(c)) == [c]
    ensures PieceOf(c).Code? ==> IsHex(PieceOf(c).h) && !HighSurrogate(HexValue(PieceOf(c).h))
  {
    if PieceOf(c).Code? {
      var h := PieceOf(c).h;
      HexBack(c / 16);
      HexBack(c % 16);
      assert HexDigit(h[0]) == 0 && HexDigit(h[1]) == 0;
      assert HexValue(h) == c;
    }
  }

  lemma HexBack(x: nat)
    requires x < 16
    ensures HexDigit(HexChar(x)) == x
  {}

  lemma {:induction false} PiecesMean(s: Text)
    ensures ValidPieces(PiecesOf(s)) && Decode(PiecesOf(s)) == s
  {
    if s != [] {
      var ps := PiecesOf(s);
      PieceMeans(s[0]);
      PiecesMean(s[1..]);
      assert ps[0] == PieceOf(s[0]) && ps[1..] == PiecesOf(s[1..]);
      assert !Pairs(ps);
      assert s == [s[0]] + s[1..];
    }
  }

  lemma {:induction false} SpellingMeans(v: Json, indent: Text, cur: Text)
    requires Encodable(v) && AllWs(indent) && AllWs(cur)
    ensures var t := Spelling(v, indent, cur);
      Valid(t) && Meaning(t) == v && Depth(t) == Levels(v)
    decreases v, 1
  {
    match v
    case Int(n) => NumberMeans(n);
    case Str(s) => PiecesMean(s);
    case Slice(es) => if es != [] { ItemsMean(es, indent, cur); }
    case Map(ms) =>
      if ms != [] {
        MembersMean(ms, indent, cur, []);
        assert [] + ms == ms;
      }
    case _ =>
  }

  lemma {:induction false} ItemsMean(es: seq<Json>, indent: Text, cur: Text)
    requires es != [] && (forall e | e in es :: Encodable(e)) && AllWs(indent) && AllWs(cur)
    ensures var items := SpellItems(es, indent, cur);
      ValidItems(items) && Elements(items) == es && ItemsDepth(items) == SliceLevels(es)
    decreases es, 0
  {
    var pad := cur + indent;
    SpellingMeans(es[0], indent, pad);
    if |es| == 1 {
      assert es == [es[0]] && es[1..] == [];
    } else {
      ItemsMean(es[1..], indent, cur);
      assert es == [es[0]] + es[1..];
    }
  }

  lemma {:induction false} MembersMean(ms: seq<Pair<Text, Json>>, indent: Text, cur: Text, acc: seq<Pair<Text, Json>>)
    requires ms != [] && (forall m | m in ms :: Encodable(m.val)) && AllWs(indent) && AllWs(cur)
    requires DistinctKeys(acc + ms)
    ensures var members := SpellMembers(ms, indent, cur);
      ValidMembers(members) && Entries(members, acc) == acc + ms && MembersDepth(members) == MapLevels(ms)
    decreases ms, 0
  {
    var pad := cur + indent;
    var Pair(k, e) := ms[0];
    assert e < ms[0];
    SpellingMeans(e, indent, pad);
    PiecesMean(k);
    NewKey(acc, ms);
    var now := acc + [Pair(k, e)];
    if |ms| == 1 {
      assert acc + ms == now && ms[1..] == [];
    } else {
      assert now + ms[1..] == acc + ms;
      MembersMean(ms[1..], indent, cur, now);
    }
  }

  lemma NewKey(acc: seq<Pair<Text, Json>>, ms: seq<Pair<Text, Json>>)
    requires ms != [] && DistinctKeys(acc + ms)
    ensures Set(acc, SameText, ms[0].key, ms[0].val) == acc + [Pair(ms[0].key, ms[0].val)]
  {
    var all := acc + ms;
    assert all[|acc|] == ms[0];
    forall j | 0 <= j < |acc| ensures !SameText(acc[j].key, ms[0].key) {
      assert all[j] == acc[j];
    }
  }

  /** Decoding what encoding wrote gives back the value: whatever its shape, compact or pretty,
   *  as long as it nests no deeper than is allowed. */
  lemma RoundTrip(v: Json, indent: Text)
    requires Encodable(v) && AllWs(indent) && Levels(v) <= MAX_DEPTH
    ensures var s := Write(Spelling(v, indent, []));
      DocumentOf(s) == Got(v, |s|)
  {
    var none: Text := [];
    var t := Spelling(v, indent, none);
    SpellingMeans(v, indent, none);
    hide Write, Valid, Meaning, Depth, Spelling, DocumentAt;
    assert Around(Write(t), none, t, none) by { assert none + (Write(t) + none) == Write(t); }
    DocumentSpells(Write(t));
  }

  /* -------------------------------------------------------- the encoder */

  /** What json_str writes for the first n bytes. */
  lemma PiecesMore(s: Text, n: nat)
    requires n < |s|
    ensures WritePieces(PiecesOf(s[..n + 1])) == WritePieces(PiecesOf(s[..n])) + WritePiece(PieceOf(s[n]))
  {
    PiecesSplit(s[..n], s[n]);
    assert s[..n + 1] == s[..n] + [s[n]];
  }

  lemma {:induction false} PiecesSplit(s: Text, c: Byte)
    ensures WritePieces(PiecesOf(s + [c])) == WritePieces(PiecesOf(s)) + WritePiece(PieceOf(c))
  {
    if s == [] {
      assert s + [c] == [c] && [c][1..] == [];
      assert PiecesOf([c]) == [PieceOf(c)];
    } else {
      assert (s + [c])[1..] == s[1..] + [c];
      PiecesSplit(s[1..], c);
      var ps, qs := PiecesOf(s[1..]), PiecesOf(s[1..] + [c]);
      assert ([PieceOf(s[0])] + ps)[1..] == ps && ([PieceOf(s[0])] + qs)[1..] == qs;
    }
  }

  class Encoder {
    var out: Text
    var depth: nat
    var deep: bool

    constructor ()
      ensures out == [] && depth == 0 && !deep
    {
      out, depth, deep := [], 0, false;
    }

    /** json_str: runs of plain bytes are copied in one piece. */
    method JsonStr(s: Text)
      modifies this`out
      ensures out == old(out) + WriteString(PiecesOf(s))
    {
      hide PieceOf, WritePiece, WritePieces, PiecesOf;
      ghost var base := out + [QUOTE];
      out := out + [QUOTE];
      var run := 0;
      NoPieces(s);
      NoRun(out, s, 0);
      for i := 0 to |s|
        invariant 0 <= run <= i && out + s[run..i] == base + WritePieces(PiecesOf(s[..i]))
      {
        ghost var had := out + s[run..i];
        PiecesMore(s, i);
        PlainText(s[i]);
        var piece := PieceOf(s[i]);
        Join(base, WritePieces(PiecesOf(s[..i])), WritePiece(piece));
        if piece.Plain? {
          OneMore(out, s, run, i);
        } else {
          if i > run { out := out + s[run..i]; } else { NoRun(out, s, i); }
          assert out == had;
          out := out + WritePiece(piece);
          run := i + 1;
          NoRun(out, s, run);
        }
      }
      AllOf(s, run);
      if |s| > run { out := out + s[run..]; } else { NoRun(out, s, run); }
      assert out == base + WritePieces(PiecesOf(s));
      Join(base, WritePieces(PiecesOf(s)), [QUOTE]);
      Join(old(out), [QUOTE], WriteRest(PiecesOf(s)));
      out := out + [QUOTE];
    }

    /** json_enc: past the limit nothing more is descended into, and the flag says so. */
    method JsonEnc(v: Json, indent: Text, cur: Text)
      requires Encodable(v) && |indent| <= 2 && |cur| <= 2 * depth && depth <= MAX_DEPTH
      modifies this
      ensures depth == old(depth) && (deep <==> old(deep) || old(depth) + Levels(v) > MAX_DEPTH)
      ensures !deep ==> out == old(out) + Write(Spelling(v, indent, cur))
      decreases v, 2
    {
      hide Write, Spelling, Levels;
      LevelsSome(v);
      if depth >= MAX_DEPTH {
        deep := true;
        out := out + NullText();
        return;
      }
      depth := depth + 1;
      JsonEncBody(v, indent, cur);
      depth := depth - 1;
    }

    method JsonEncBody(v: Json, indent: Text, cur: Text)
      requires Encodable(v) && |indent| <= 2 && |cur| <= 2 * (depth - 1) && 1 <= depth <= MAX_DEPTH
      modifies this
      ensures depth == old(depth) && (deep <==> old(deep) || old(depth) - 1 + Levels(v) > MAX_DEPTH)
      ensures !deep ==> out == old(out) + Write(Spelling(v, indent, cur))
      decreases v, 1
    {
      hide Spelling, Write, Levels, SliceLevels, MapLevels, WriteNum, WriteItems, WriteMembers, SpellItems,
        SpellMembers;
      hide WriteString, PiecesOf;
      var pad := cur + indent;
      assert |pad| < PAD_SIZE;
      SpellingParts(v, indent, cur);
      match v
      case Nil => out := out + NullText();
      case Bool(b) => out := out + if b then TrueText() else FalseText();
      case Int(n) =>
        IntWritten(n);
        out := out + (SignText(n < 0) + Chars(DigitString(if n < 0 then -n else n)));
      case Str(s) => JsonStr(s);
      case Slice(es) =>
        if es == [] {
          out := out + [OPEN_ARRAY, CLOSE_ARRAY];
          return;
        }
        EncSeq(es, indent, cur);
      case Map(ms) =>
        if ms == [] {
          out := out + [OPEN_OBJECT, CLOSE_OBJECT];
          return;
        }
        EncMap(ms, indent, cur);
    }

    /** enc_seq, of at least one value. */
    method EncSeq(es: seq<Json>, indent: Text, cur: Text)
      requires es != [] && (forall e | e in es :: Encodable(e))
      requires |indent| <= 2 && |cur| <= 2 * (depth - 1) && 1 <= depth <= MAX_DEPTH
      modifies this
      ensures depth == old(depth) && (deep <==> old(deep) || old(depth) + SliceLevels(es) > MAX_DEPTH)
      ensures !deep ==> out == old(out) + ([OPEN_ARRAY] + WriteItems(SpellItems(es, indent, cur)))
      decreases es, 0
    {
      hide Write, Spelling, Levels, WriteItems, SpellItems, SliceLevels, ItemsFrom;
      var pad, nl := cur + indent, Break(indent);
      out := out + [OPEN_ARRAY];
      out := out + nl;
      ghost var start := out;
      NoLevels(es);
      assert es[0..] == es;
      for i := 0 to |es|
        invariant depth == old(depth) && (deep <==> old(deep) || depth + SliceLevels(es[..i]) > MAX_DEPTH)
        invariant !deep ==> out + ItemsFrom(es[i..], indent, cur) == start + ItemsFrom(es, indent, cur)
      {
        ghost var before := out;
        SliceMore(es, i);
        out := out + pad;
        JsonEnc(es[i], indent, pad);
        if i < |es| - 1 { out := out + [COMMA]; }
        out := out + nl;
        if !deep { ItemWritten(es, i, indent, cur, before); }
      }
      assert es[..|es|] == es && es[|es|..] == [];
      ItemsEnd(indent, cur);
      Join(out, cur, [CLOSE_ARRAY]);
      out := out + cur;
      out := out + [CLOSE_ARRAY];
      ItemsWritten(es, indent, cur);
      Join(old(out) + [OPEN_ARRAY], nl, ItemsFrom(es, indent, cur));
      Join(old(out), [OPEN_ARRAY], nl + ItemsFrom(es, indent, cur));
    }

    /** The entries of a map. */
    method EncMap(ms: seq<Pair<Text, Json>>, indent: Text, cur: Text)
      requires ms != [] && (forall m | m in ms :: Encodable(m.val))
      requires |indent| <= 2 && |cur| <= 2 * (depth - 1) && 1 <= depth <= MAX_DEPTH
      modifies this
      ensures depth == old(depth) && (deep <==> old(deep) || old(depth) + MapLevels(ms) > MAX_DEPTH)
      ensures !deep ==> out == old(out) + ([OPEN_OBJECT] + WriteMembers(SpellMembers(ms, indent, cur)))
      decreases ms, 0
    {
      hide Write, Spelling, Levels, WriteMembers, SpellMembers, MapLevels, MembersFrom, WriteString, PiecesOf;
      var pad, nl, sep := cur + indent, Break(indent), [COLON] + Gap(indent);
      out := out + [OPEN_OBJECT];
      out := out + nl;
      ghost var start := out;
      NoMapLevels(ms);
      assert ms[0..] == ms;
      for i := 0 to |ms|
        invariant depth == old(depth) && (deep <==> old(deep) || depth + MapLevels(ms[..i]) > MAX_DEPTH)
        invariant !deep ==> out + MembersFrom(ms[i..], indent, cur) == start + MembersFrom(ms, indent, cur)
      {
        ghost var before := out;
        MapMore(ms, i);
        var Pair(k, e) := ms[i];
        assert e < ms[i];
        out := out + pad;
        JsonStr(k);
        out := out + sep;
        JsonEnc(e, indent, pad);
        if i < |ms| - 1 { out := out + [COMMA]; }
        out := out + nl;
        if !deep { MemberWritten(ms, i, indent, cur, before); }
      }
      assert ms[..|ms|] == ms && ms[|ms|..] == [];
      MembersEnd(indent, cur);
      Join(out, cur, [CLOSE_OBJECT]);
      out := out + cur;
      out := out + [CLOSE_OBJECT];
      MembersWritten(ms, indent, cur);
      Join(old(out) + [OPEN_OBJECT], nl, MembersFrom(ms, indent, cur));
      Join(old(out), [OPEN_OBJECT], nl + MembersFrom(ms, indent, cur));
    }
  }

  /** How each kind of value is spelled. */
  lemma SpellingParts(v: Json, indent: Text, cur: Text)
    requires Encodable(v)
    ensures v.Nil? ==> Write(Spelling(v, indent, cur)) == NullText()
    ensures v.Bool? ==> Write(Spelling(v, indent, cur)) == if v.b then TrueText() else FalseText()
    ensures v.Int? ==> Write(Spelling(v, indent, cur)) == WriteNum(NumOf(v.n))
    ensures v.Str? ==> Write(Spelling(v, indent, cur)) == WriteString(PiecesOf(v.s))
    ensures v.Slice? && v.es == [] ==> Write(Spelling(v, indent, cur)) == [OPEN_ARRAY, CLOSE_ARRAY]
    ensures v.Slice? && v.es != [] ==>
              Write(Spelling(v, indent, cur)) == [OPEN_ARRAY] + WriteItems(SpellItems(v.es, indent, cur))
    ensures v.Map? && v.ms == [] ==> Write(Spelling(v, indent, cur)) == [OPEN_OBJECT, CLOSE_OBJECT]
    ensures v.Map? && v.ms != [] ==>
              Write(Spelling(v, indent, cur)) == [OPEN_OBJECT] + WriteMembers(SpellMembers(v.ms, indent, cur))
    ensures Levels(v)
         == if v.Slice? then 1 + SliceLevels(v.es) else if v.Map? then 1 + MapLevels(v.ms) else 1
    ensures SliceLevels([]) == 0 && MapLevels([]) == 0
  {
    hide WriteNum, WriteItems, WriteMembers, SpellItems, SpellMembers, WriteString, PiecesOf;
  }

  lemma Join(a: Text, b: Text, c: Text)
    ensures (a + b) + c == a + (b + c)
  {}

  lemma NoRun(out: Text, s: Text, i: nat)
    requires i <= |s|
    ensures s[i..i] == [] && out + s[i..i] == out
  {}

  lemma OneMore(out: Text, s: Text, run: nat, i: nat)
    requires run <= i < |s|
    ensures out + s[run..i + 1] == (out + s[run..i]) + [s[i]]
  {}

  lemma AllOf(s: Text, run: nat)
    requires run <= |s|
    ensures s[..|s|] == s && s[run..|s|] == s[run..]
  {}

  lemma ItemsEnd(indent: Text, cur: Text)
    ensures ItemsFrom([], indent, cur) == cur + [CLOSE_ARRAY]
  {}

  lemma MembersEnd(indent: Text, cur: Text)
    ensures MembersFrom([], indent, cur) == cur + [CLOSE_OBJECT]
  {}

  lemma NoPieces(s: Text)
    ensures WritePieces(PiecesOf(s[..0])) == []
  {
    assert s[..0] == [];
  }

  lemma PlainText(c: Byte)
    ensures PieceOf(c).Plain? ==> WritePiece(PieceOf(c)) == [c]
  {}

  lemma LevelsSome(v: Json)
    ensures Levels(v) > 0
  {}

  lemma IntWritten(n: int)
    ensures WriteNum(NumOf(n)) == SignText(n < 0) + Chars(DigitString(if n < 0 then -n else n))
  {
    var ds := Chars(DigitString(if n < 0 then -n else n));
    assert ds + (WriteFrac([]) + WriteExp(NoExp)) == ds;
  }

  lemma NoLevels(es: seq<Json>)
    ensures SliceLevels(es[..0]) == 0
  {
    assert es[..0] == [];
  }

  lemma {:induction false} SliceMore(es: seq<Json>, i: nat)
    requires i < |es|
    ensures SliceLevels(es[..i + 1]) == Max(SliceLevels(es[..i]), Levels(es[i]))
    decreases i
  {
    var p, q := es[..i], es[..i + 1];
    if i == 0 {
      assert q == [es[0]] && q[1..] == [] && p == [];
    } else {
      assert p[1..] == es[1..][..i - 1] && q[1..] == es[1..][..i];
      SliceMore(es[1..], i - 1);
    }
  }

  lemma NoMapLevels(ms: seq<Pair<Text, Json>>)
    ensures MapLevels(ms[..0]) == 0
  {
    assert ms[..0] == [];
  }

  lemma {:induction false} MapMore(ms: seq<Pair<Text, Json>>, i: nat)
    requires i < |ms|
    ensures MapLevels(ms[..i + 1]) == Max(MapLevels(ms[..i]), Levels(ms[i].val))
    decreases i
  {
    var p, q := ms[..i], ms[..i + 1];
    if i == 0 {
      assert q == [ms[0]] && q[1..] == [] && p == [];
    } else {
      assert p[1..] == ms[1..][..i - 1] && q[1..] == ms[1..][..i];
      MapMore(ms[1..], i - 1);
    }
  }

  /** The text from an element on, as it is written. */
  function ItemsFrom(es: seq<Json>, indent: Text, cur: Text): Text
    requires forall e | e in es :: Encodable(e)
  {
    if es == [] then cur + [CLOSE_ARRAY]
    else
      (cur + indent) + (Write(Spelling(es[0], indent, cur + indent))
                        + ((if |es| > 1 then [COMMA] else []) + (Break(indent) + ItemsFrom(es[1..], indent, cur))))
  }

  lemma ItemWritten(es: seq<Json>, i: nat, indent: Text, cur: Text, x: Text)
    requires (forall e | e in es :: Encodable(e)) && i < |es|
    ensures var pad := cur + indent;
      var w := Write(Spelling(es[i], indent, pad));
      var y := ((x + pad) + w) + if i < |es| - 1 then [COMMA] else [];
      (y + Break(indent)) + ItemsFrom(es[i + 1..], indent, cur) == x + ItemsFrom(es[i..], indent, cur)
  {
    assert es[i..][1..] == es[i + 1..];
    hide Write, Spelling;
  }

  lemma {:induction false} ItemsWritten(es: seq<Json>, indent: Text, cur: Text)
    requires es != [] && forall e | e in es :: Encodable(e)
    ensures WriteItems(SpellItems(es, indent, cur)) == Break(indent) + ItemsFrom(es, indent, cur)
    decreases |es|
  {
    hide Write, Spelling;
    var none: Text := [];
    var pad, nl := cur + indent, Break(indent);
    var w := Write(Spelling(es[0], indent, pad));
    if |es| > 1 {
      ItemsWritten(es[1..], indent, cur);
      var x := [COMMA] + (nl + ItemsFrom(es[1..], indent, cur));
      assert none + x == x;
      Join(nl, pad, w + x);
    } else {
      ItemsEnd(indent, cur);
      assert es[1..] == [];
      var x := nl + (cur + [CLOSE_ARRAY]);
      assert none + x == x;
      Join(nl, cur, [CLOSE_ARRAY]);
      Join(nl, pad, w + x);
    }
  }

  function MembersFrom(ms: seq<Pair<Text, Json>>, indent: Text, cur: Text): Text
    requires forall m | m in ms :: Encodable(m.val)
  {
    if ms == [] then cur + [CLOSE_OBJECT]
    else
      (cur + indent) + (WriteString(PiecesOf(ms[0].key)) + ([COLON] + (Gap(indent)
        + (Write(Spelling(ms[0].val, indent, cur + indent))
           + ((if |ms| > 1 then [COMMA] else []) + (Break(indent) + MembersFrom(ms[1..], indent, cur)))))))
  }

  lemma MemberWritten(ms: seq<Pair<Text, Json>>, i: nat, indent: Text, cur: Text, x: Text)
    requires (forall m | m in ms :: Encodable(m.val)) && i < |ms|
    ensures var pad := cur + indent;
      var w := Write(Spelling(ms[i].val, indent, pad));
      var y := ((((x + pad) + WriteString(PiecesOf(ms[i].key))) + ([COLON] + Gap(indent))) + w)
               + if i < |ms| - 1 then [COMMA] else [];
      (y + Break(indent)) + MembersFrom(ms[i + 1..], indent, cur) == x + MembersFrom(ms[i..], indent, cur)
  {
    hide Write, Spelling, WriteString, PiecesOf;
    var rest := ms[i..];
    assert rest[1..] == ms[i + 1..] && rest[0] == ms[i];
    var pad, key, sep := cur + indent, WriteString(PiecesOf(ms[i].key)), [COLON] + Gap(indent);
    var w, nl := Write(Spelling(ms[i].val, indent, cur + indent)), Break(indent);
    var comma: Text := if i < |ms| - 1 then [COMMA] else [];
    MemberShape(x, pad, key, [COLON], Gap(indent), w, comma, nl, MembersFrom(ms[i + 1..], indent, cur));
  }

  lemma MemberShape(x: Text, pad: Text, key: Text, colon: Text, gap: Text, w: Text, comma: Text, nl: Text, f: Text)
    ensures ((((((x + pad) + key) + (colon + gap)) + w) + comma) + nl) + f
         == x + (pad + (key + (colon + (gap + (w + (comma + (nl + f)))))))
  {
    var e := x + pad;
    var d := e + key;
    var c := d + (colon + gap);
    var b := c + w;
    Join(b + comma, nl, f);
    Join(b, comma, nl + f);
    Join(c, w, comma + (nl + f));
    Join(d, colon + gap, w + (comma + (nl + f)));
    Join(colon, gap, w + (comma + (nl + f)));
    Join(e, key, colon + (gap + (w + (comma + (nl + f)))));
    Join(x, pad, key + (colon + (gap + (w + (comma + (nl + f))))));
  }

  lemma {:induction false} MembersWritten(ms: seq<Pair<Text, Json>>, indent: Text, cur: Text)
    requires ms != [] && forall m | m in ms :: Encodable(m.val)
    ensures WriteMembers(SpellMembers(ms, indent, cur)) == Break(indent) + MembersFrom(ms, indent, cur)
    decreases |ms|
  {
    hide Write, Spelling, WriteString, PiecesOf;
    var none: Text := [];
    var pad, nl, key := cur + indent, Break(indent), WriteString(PiecesOf(ms[0].key));
    var w := Write(Spelling(ms[0].val, indent, pad));
    if |ms| > 1 {
      MembersWritten(ms[1..], indent, cur);
      var x := [COMMA] + (nl + MembersFrom(ms[1..], indent, cur));
      assert none + x == x;
      var y := [COLON] + (Gap(indent) + (w + x));
      assert none + y == y;
      Join(nl, pad, key + y);
    } else {
      MembersEnd(indent, cur);
      assert ms[1..] == [];
      var x := nl + (cur + [CLOSE_OBJECT]);
      assert none + x == x;
      Join(nl, cur, [CLOSE_OBJECT]);
      var y := [COLON] + (Gap(indent) + (w + x));
      assert none + y == y;
      Join(nl, pad, key + y);
    }
  }

  /** vl_json_encode: refused exactly when it nests too deeply. */
  method EncodeText(v: Json, pretty: bool) returns (r: Option<Text>)
    requires Encodable(v)
    ensures r.Some? <==> Levels(v) <= 512
    ensures r.Some? ==> DocumentOf(r.value) == Got(v, |r.value|)
    ensures r.Some? ==> r.value == Write(Spelling(v, if pretty then [32, 32] else [], []))
  {
    hide Write, Spelling, DocumentOf;
    var b := new Encoder();
    var indent := if pretty then [SPACE, SPACE] else [];
    var none: Text := [];
    b.JsonEnc(v, indent, none);
    if b.deep { return None; }
    RoundTrip(v, indent);
    assert b.out == Write(Spelling(v, indent, none));
    return Some(b.out);
  }
}
