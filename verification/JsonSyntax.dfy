/** JSON texts as trees (RFC 8259, sections 2 to 7), how each is written and what it means to
 *  runtime/src/json.c. */
module JsonSyntax {
  import opened Options
  import opened Bytes
  import opened AssocList
  import opened DecimalDigits
  import opened DecimalOps
  import opened DecimalText

  /** The values that are encoded to and decoded from untyped JSON; a decimal is what its text
   *  reads as. */
  datatype Json =
    | Nil
    | Bool(b: bool)
    | Int(n: int)
    | Decimal(r: Reading)
    | Str(s: Text)
    | Slice(es: seq<Json>)
    | Map(ms: seq<Pair<Text, Json>>)

  const MAX_DEPTH := 512
  const MIN_INT := -0x8000_0000_0000_0000
  const MAX_INT := 0x7FFF_FFFF_FFFF_FFFF

  const QUOTE: Byte := '"' as int
  const BACKSLASH: Byte := '\\' as int
  const SMALL_U: Byte := 'u' as int
  const COMMA: Byte := ',' as int
  const COLON: Byte := ':' as int
  const OPEN_ARRAY: Byte := '[' as int
  const CLOSE_ARRAY: Byte := ']' as int
  const OPEN_OBJECT: Byte := '{' as int
  const CLOSE_OBJECT: Byte := '}' as int
  const RETURN: Byte := 13

  /** A byte of a string, a two-byte escape, or four hex digits after a backslash and a u. */
  datatype Piece = Plain(c: Byte) | Short(e: Byte) | Code(h: Text)

  datatype ExpPart = NoExp | Exp(mark: Byte, sign: Text, digits: Text)

  /** A number's sign, digits, digits after a point if there is one, and exponent. */
  datatype Num = Num(neg: bool, whole: Text, frac: Text, exp: ExpPart)

  datatype Syntax =
    | Null
    | True
    | False
    | Number(num: Num)
    | String(ps: seq<Piece>)
    | EmptyArray(ws: Text)
    | Array(items: Items)
    | EmptyObject(ws: Text)
    | Object(members: Members)

  /** Elements with the space around each. */
  datatype Items =
    | LastItem(before: Text, v: Syntax, after: Text)
    | Item(before: Text, v: Syntax, after: Text, rest: Items)

  /** A key, its colon and its value, with the space around each. */
  datatype Members =
    | LastMember(before: Text, key: seq<Piece>, mid: Text, gap: Text, v: Syntax, after: Text)
    | Member(before: Text, key: seq<Piece>, mid: Text, gap: Text, v: Syntax, after: Text, more: Members)

  /* -------------------------------------------------------- how it is written */

  function WritePiece(p: Piece): (s: Text)
    ensures |s| > 0
  {
    match p
    case Plain(c) => [c]
    case Short(e) => [BACKSLASH, e]
    case Code(h) => [BACKSLASH, SMALL_U] + h
  }

  function WritePieces(ps: seq<Piece>): Text {
    if ps == [] then [] else WritePiece(ps[0]) + WritePieces(ps[1..])
  }

  /** The pieces and the closing quote. */
  function WriteRest(ps: seq<Piece>): Text { WritePieces(ps) + [QUOTE] }

  function WriteString(ps: seq<Piece>): Text { [QUOTE] + WriteRest(ps) }

  function WriteExp(e: ExpPart): Text {
    match e
    case NoExp => []
    case Exp(mark, sign, digits) => [mark] + (sign + digits)
  }

  function WriteFrac(frac: Text): Text { if frac == [] then [] else [DOT] + frac }

  function WriteNum(n: Num): Text { SignText(n.neg) + (n.whole + (WriteFrac(n.frac) + WriteExp(n.exp))) }

  function NullText(): Text { ['n' as int, 'u' as int, 'l' as int, 'l' as int] }
  function TrueText(): Text { ['t' as int, 'r' as int, 'u' as int, 'e' as int] }
  function FalseText(): Text { ['f' as int, 'a' as int, 'l' as int, 's' as int, 'e' as int] }

  function Write(t: Syntax): Text {
    match t
    case Null => NullText()
    case True => TrueText()
    case False => FalseText()
    case Number(n) => WriteNum(n)
    case String(ps) => WriteString(ps)
    case EmptyArray(ws) => [OPEN_ARRAY] + (ws + [CLOSE_ARRAY])
    case Array(items) => [OPEN_ARRAY] + WriteItems(items)
    case EmptyObject(ws) => [OPEN_OBJECT] + (ws + [CLOSE_OBJECT])
    case Object(members) => [OPEN_OBJECT] + WriteMembers(members)
  }

  /** The elements and the closing bracket. */
  function WriteItems(items: Items): Text {
    match items
    case LastItem(before, v, after) => before + (Write(v) + (after + [CLOSE_ARRAY]))
    case Item(before, v, after, rest) => before + (Write(v) + (after + ([COMMA] + WriteItems(rest))))
  }

  function WriteMembers(members: Members): Text {
    match members
    case LastMember(before, key, mid, gap, v, after) =>
      before + (WriteString(key) + (mid + ([COLON] + (gap + (Write(v) + (after + [CLOSE_OBJECT]))))))
    case Member(before, key, mid, gap, v, after, more) =>
      before + (WriteString(key) + (mid + ([COLON] + (gap + (Write(v) + (after + ([COMMA] + WriteMembers(more))))))))
  }

  /* -------------------------------------------------------- what is grammatical */

  predicate IsWs(c: Byte) { c == SPACE || c == NEWLINE || c == TAB || c == RETURN }

  predicate AllWs(s: Text) { forall i | 0 <= i < |s| :: IsWs(s[i]) }

  function HexDigit(c: Byte): (h: int)
    ensures -1 <= h < 16
  {
    if IsDigit(c) then c - DIGIT0
    else if 'a' as int <= c <= 'f' as int then c - 'a' as int + 10
    else if 'A' as int <= c <= 'F' as int then c - 'A' as int + 10
    else -1
  }

  predicate IsHex(h: Text) { |h| == 4 && forall i | 0 <= i < 4 :: HexDigit(h[i]) >= 0 }

  /** The byte that a two-byte escape stands for, or -1. */
  function Unescaped(e: Byte): (c: int)
    ensures -1 <= c < 256
  {
    if e == QUOTE || e == BACKSLASH || e == '/' as int then e
    else if e == 'b' as int then 8
    else if e == 'f' as int then 12
    else if e == 'n' as int then 10
    else if e == 'r' as int then 13
    else if e == 't' as int then 9
    else -1
  }

  predicate ValidPiece(p: Piece) {
    match p
    case Plain(c) => c >= 0x20 && c != QUOTE && c != BACKSLASH
    case Short(e) => Unescaped(e) >= 0
    case Code(h) => IsHex(h)
  }

  predicate ValidPieces(ps: seq<Piece>) { forall i | 0 <= i < |ps| :: ValidPiece(ps[i]) }

  predicate ValidExp(e: ExpPart) {
    e.Exp? ==>
      (e.mark == SMALL_E || e.mark == LARGE_E) && (e.sign == [] || e.sign == [PLUS] || e.sign == [MINUS])
      && e.digits != [] && AllDigits(e.digits)
  }

  predicate ValidNum(n: Num) {
    && n.whole != [] && AllDigits(n.whole) && (|n.whole| > 1 ==> n.whole[0] != DIGIT0)
    && AllDigits(n.frac) && ValidExp(n.exp)
  }

  /** An integer that fits is an int; any other number is a decimal, if its exponent is in range. */
  function NumValue(n: Num): Option<Json>
    requires ValidNum(n)
  {
    var x := Signed(n.neg, Val(DigitsOf(n.whole)));
    if n.frac == [] && n.exp.NoExp? && MIN_INT <= x <= MAX_INT then Some(Int(x))
    else
      match Read(WriteNum(n))
      case None => None
      case Some(r) => Some(Decimal(r))
  }

  predicate Valid(t: Syntax) {
    match t
    case Number(n) => ValidNum(n) && NumValue(n).Some?
    case String(ps) => ValidPieces(ps)
    case EmptyArray(ws) => AllWs(ws)
    case Array(items) => ValidItems(items)
    case EmptyObject(ws) => AllWs(ws)
    case Object(members) => ValidMembers(members)
    case _ => true
  }

  predicate ValidItems(items: Items) {
    AllWs(items.before) && Valid(items.v) && AllWs(items.after) && (items.Item? ==> ValidItems(items.rest))
  }

  predicate ValidMembers(m: Members) {
    && AllWs(m.before) && ValidPieces(m.key) && AllWs(m.mid) && AllWs(m.gap) && Valid(m.v) && AllWs(m.after)
    && (m.Member? ==> ValidMembers(m.more))
  }

  function Max(x: nat, y: nat): nat { if x < y then y else x }

  /** Levels of nesting. */
  function Depth(t: Syntax): (d: nat)
    ensures d > 0
  {
    match t
    case Array(items) => 1 + ItemsDepth(items)
    case Object(members) => 1 + MembersDepth(members)
    case _ => 1
  }

  function ItemsDepth(items: Items): nat {
    if items.Item? then Max(Depth(items.v), ItemsDepth(items.rest)) else Depth(items.v)
  }

  function MembersDepth(m: Members): nat {
    if m.Member? then Max(Depth(m.v), MembersDepth(m.more)) else Depth(m.v)
  }

  /* -------------------------------------------------------- what it means */

  function HexValue(h: Text): (x: nat)
    requires IsHex(h)
    ensures x < 0x10000
  {
    ((HexDigit(h[0]) * 16 + HexDigit(h[1])) * 16 + HexDigit(h[2])) * 16 + HexDigit(h[3])
  }

  predicate HighSurrogate(x: int) { 0xD800 <= x <= 0xDBFF }
  predicate LowSurrogate(x: int) { 0xDC00 <= x <= 0xDFFF }

  const REPLACEMENT := 0xFFFD

  /** put_utf8: a code point in one to four bytes. */
  function Utf8(r: nat): (s: Text)
    requires r < 0x110000
    ensures 1 <= |s| <= 4
  {
    if r < 0x80 then [r]
    else if r < 0x800 then [0xC0 + r / 64, 0x80 + r % 64]
    else if r < 0x10000 then [0xE0 + r / 4096, 0x80 + r / 64 % 64, 0x80 + r % 64]
    else [0xF0 + r / 262144, 0x80 + r / 4096 % 64, 0x80 + r / 64 % 64, 0x80 + r % 64]
  }

  function Lone(x: nat): nat { if HighSurrogate(x) || LowSurrogate(x) then REPLACEMENT else x }

  /** The piece at i is a high surrogate, and so the next code is taken with it. */
  predicate Pairs(ps: seq<Piece>) {
    |ps| > 1 && ps[0].Code? && IsHex(ps[0].h) && HighSurrogate(HexValue(ps[0].h)) && ps[1].Code? && IsHex(ps[1].h)
  }

  /** What a high surrogate and the code after it stand for. */
  function PairText(hi: nat, lo: nat): (s: Text)
    requires HighSurrogate(hi) && lo < 0x10000
    ensures |s| <= 12
  {
    if LowSurrogate(lo) then Utf8(0x10000 + (hi - 0xD800) * 0x400 + (lo - 0xDC00))
    else Utf8(REPLACEMENT) + Utf8(Lone(lo))
  }

  function PieceText(p: Piece): (s: Text)
    requires ValidPiece(p)
    ensures |s| <= |WritePiece(p)|
  {
    match p
    case Plain(c) => [c]
    case Short(e) => [Unescaped(e)]
    case Code(h) => Utf8(Lone(HexValue(h)))
  }

  function Decode(ps: seq<Piece>): Text
    requires ValidPieces(ps)
  {
    if ps == [] then []
    else if Pairs(ps) then PairText(HexValue(ps[0].h), HexValue(ps[1].h)) + Decode(ps[2..])
    else PieceText(ps[0]) + Decode(ps[1..])
  }

  predicate SameText(x: Text, y: Text) { x == y }

  function Meaning(t: Syntax): Json
    requires Valid(t)
  {
    match t
    case Null => Nil
    case True => Bool(true)
    case False => Bool(false)
    case Number(n) => NumValue(n).value
    case String(ps) => Str(Decode(ps))
    case EmptyArray(_) => Slice([])
    case Array(items) => Slice(Elements(items))
    case EmptyObject(_) => Map([])
    case Object(members) => Map(Entries(members, []))
  }

  function Elements(items: Items): seq<Json>
    requires ValidItems(items)
  {
    [Meaning(items.v)] + if items.Item? then Elements(items.rest) else []
  }

  /** Members are set in order: the last value of a key counts, where the first was. */
  function Entries(m: Members, acc: seq<Pair<Text, Json>>): seq<Pair<Text, Json>>
    requires ValidMembers(m)
  {
    var now := Set(acc, SameText, Decode(m.key), Meaning(m.v));
    if m.Member? then Entries(m.more, now) else now
  }
}
