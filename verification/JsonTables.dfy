/** The tables of RFC 8259 that the grammar, the reader and the writer share, and a whole text with
 *  its value. */
module JsonTables {
  import opened Options
  import opened Bytes
  import opened AssocList
  import opened DecimalDigits
  import opened DecimalText
  import opened JsonSyntax
  import opened JsonParse
  import opened JsonReader
  import opened JsonWriter

  /* -------------------------------------------------------- bytes */

  /** Section 7: the two-byte escapes, and what each stands for. */
  lemma EscapeTable(e: Byte)
    ensures ValidPiece(Short(e)) <==> e as char in "\"\\/bfnrt"
    ensures ValidPiece(Short(e)) ==>
      PieceText(Short(e)) == match e as char
                             case 'b' => [8]
                             case 't' => [9]
                             case 'n' => [10]
                             case 'f' => [12]
                             case 'r' => [13]
                             case _ => [e]
  {}

  /** Section 7: any other byte but a quotation mark, a backslash and the controls is itself. */
  lemma PlainTable(c: Byte)
    ensures ValidPiece(Plain(c)) <==> c >= 32 && c as char !in "\"\\"
    ensures ValidPiece(Plain(c)) ==> PieceText(Plain(c)) == [c]
  {}

  /** Section 7: hexadecimal digits, in either case. */
  lemma HexTable(c: Byte)
    ensures var small := "0123456789abcdef"; var large := "0123456789ABCDEF";
      && (forall x | 0 <= x < 16 :: HexDigit(small[x] as int) == x && HexDigit(large[x] as int) == x)
      && (HexDigit(c) >= 0 <==> c as char in small || c as char in large)
  {
    var small, large := "0123456789abcdef", "0123456789ABCDEF";
    if HexDigit(c) >= 0 {
      var x := HexDigit(c);
      assert small[x] == c as char || large[x] == c as char;
    }
  }

  /** Section 7: four hexadecimal digits are a number of base sixteen. */
  lemma HexNumber(h: Text)
    requires IsHex(h)
    ensures HexValue(h) == 4096 * HexDigit(h[0]) + 256 * HexDigit(h[1]) + 16 * HexDigit(h[2]) + HexDigit(h[3])
  {}

  /** Section 2: white space. */
  lemma SpaceTable(c: Byte)
    ensures IsWs(c) <==> c == 32 || c == 9 || c == 10 || c == 13
  {}

  predicate Decimal(s: Text) { forall i | 0 <= i < |s| :: '0' as int <= s[i] <= '9' as int }

  /** Section 6: a number is an optional minus, digits without a needless zero before them, an
   *  optional point with digits behind it, and an optional exponent. */
  lemma NumberTable(n: Num)
    ensures ValidNum(n) <==>
      && n.whole != [] && Decimal(n.whole) && (n.whole[0] == '0' as int ==> |n.whole| == 1) && Decimal(n.frac)
      && (n.exp.Exp? ==>
            (n.exp.mark as char in "eE") && (n.exp.sign == [] || n.exp.sign == [43] || n.exp.sign == [45])
            && n.exp.digits != [] && Decimal(n.exp.digits))
  {}

  lemma NumberParts(n: Num)
    ensures WriteNum(n)
         == (if n.neg then ['-' as int] else [])
            + (n.whole
               + ((if n.frac == [] then [] else ['.' as int] + n.frac)
                  + match n.exp case NoExp => [] case Exp(mark, sign, digits) => [mark] + (sign + digits)))
  {}

  /** Sections 3 to 7: what the rest of the grammar is written with. */
  lemma TokenTable()
    ensures Write(Null) == Ascii("null") && Write(True) == Ascii("true") && Write(False) == Ascii("false")
    ensures Write(EmptyArray([])) == Ascii("[]") && Write(EmptyObject([])) == Ascii("{}")
  {}

  lemma StringTable(c: Byte, h: Text)
    ensures WritePiece(Plain(c)) == [c] && WritePiece(Short(c)) == ['\\' as int, c]
    ensures WritePiece(Code(h)) == ['\\' as int, 'u' as int] + h && Write(String([])) == ['"' as int, '"' as int]
  {}

  lemma NoSpace(x: Text)
    ensures [] + x == x
  {}

  lemma ArrayTable(v: Syntax, rest: Items)
    ensures Write(Array(Item([], v, [], rest)))
         == ['[' as int] + (Write(v) + ([',' as int] + WriteItems(rest)))
    ensures WriteItems(LastItem([], v, [])) == Write(v) + [']' as int]
  {
    var x, y: Text := Write(v), [',' as int] + WriteItems(rest);
    NoSpace(y);
    NoSpace(x + y);
    NoSpace([']' as int]);
    NoSpace(x + [']' as int]);
    hide Write;
  }

  lemma ObjectTable(key: seq<Piece>, v: Syntax, rest: Members)
    ensures Write(Object(Member([], key, [], [], v, [], rest)))
         == ['{' as int] + (WriteString(key) + ([':' as int] + (Write(v) + ([',' as int] + WriteMembers(rest)))))
    ensures WriteMembers(LastMember([], key, [], [], v, []))
         == WriteString(key) + ([':' as int] + (Write(v) + ['}' as int]))
  {
    hide WriteString;
    var x, y: Text := Write(v), [',' as int] + WriteMembers(rest);
    NoSpace(y);
    NoSpace(x + y);
    NoSpace([':' as int] + (x + y));
    NoSpace(WriteString(key) + ([':' as int] + (x + y)));
    NoSpace(['}' as int]);
    NoSpace(x + ['}' as int]);
    NoSpace([':' as int] + (x + ['}' as int]));
    NoSpace(WriteString(key) + ([':' as int] + (x + ['}' as int])));
  }

  /** An integer that fits 64 bits is an int. */
  lemma IntegerTable(n: Num)
    requires ValidNum(n) && n.frac == [] && n.exp.NoExp?
    ensures var m := Val(DigitsOf(n.whole));
      var x := if n.neg then -m else m;
      if -9223372036854775808 <= x <= 9223372036854775807 then NumValue(n) == Some(Int(x))
      else NumValue(n) == None || NumValue(n).value.Decimal?
  {}

  /** A document is a value nested no more than 512 levels, each array and each object being one, with
   *  white space around it. */
  lemma DocumentTable(s: Text, t: Syntax)
    ensures Spells(s, t) <==>
      Valid(t) && Depth(t) <= 512
      && exists v: Text, w: Text :: AllWs(v) && AllWs(w) && s == v + (Write(t) + w)
  {
    hide Valid, Depth, Write, AllWs;
    if exists v: Text, w: Text :: AllWs(v) && AllWs(w) && s == v + (Write(t) + w) {
      var v: Text, w: Text :| AllWs(v) && AllWs(w) && s == v + (Write(t) + w);
      assert Around(s, v, t, w);
    }
    if Spells(s, t) { var v: Text, w: Text :| Around(s, v, t, w); }
  }

  /** The nesting of an array or an object is one more than the deepest of what it holds. */
  lemma DepthTable(v: Syntax, rest: Items, key: seq<Piece>, more: Members)
    ensures Depth(Array(LastItem([], v, []))) == 1 + Depth(v)
    ensures Depth(Array(Item([], v, [], rest))) == Max(1 + Depth(v), Depth(Array(rest)))
    ensures Depth(Object(LastMember([], key, [], [], v, []))) == 1 + Depth(v)
    ensures Depth(Object(Member([], key, [], [], v, [], more))) == Max(1 + Depth(v), Depth(Object(more)))
    ensures !v.Array? && !v.Object? ==> Depth(v) == 1
  {}

  /* -------------------------------------------------------- the writer's layout */

  /** No white space between tokens. */
  predicate Tight(t: Syntax) {
    match t
    case EmptyArray(ws) => ws == []
    case Array(items) => TightItems(items)
    case EmptyObject(ws) => ws == []
    case Object(members) => TightMembers(members)
    case _ => true
  }

  predicate TightItems(items: Items) {
    items.before == [] && Tight(items.v) && items.after == [] && (items.Item? ==> TightItems(items.rest))
  }

  predicate TightMembers(m: Members) {
    m.before == [] && m.mid == [] && m.gap == [] && Tight(m.v) && m.after == [] && (m.Member? ==> TightMembers(m.more))
  }

  /** What is written compactly has no white space outside strings. */
  lemma {:induction false} CompactIsTight(v: Json)
    requires Encodable(v)
    ensures Tight(Spelling(v, [], []))
    decreases v, 1
  {
    match v
    case Slice(es) => if es != [] { ItemsTight(es); }
    case Map(ms) => if ms != [] { MembersTight(ms); }
    case _ =>
  }

  lemma {:induction false} ItemsTight(es: seq<Json>)
    requires es != [] && forall e | e in es :: Encodable(e)
    ensures TightItems(SpellItems(es, [], []))
    decreases es, 0
  {
    CompactIsTight(es[0]);
    if |es| > 1 { ItemsTight(es[1..]); }
  }

  lemma {:induction false} MembersTight(ms: seq<Pair<Text, Json>>)
    requires ms != [] && forall m | m in ms :: Encodable(m.val)
    ensures TightMembers(SpellMembers(ms, [], []))
    decreases ms, 0
  {
    var Pair(_, e) := ms[0];
    assert e < ms[0];
    CompactIsTight(e);
    if |ms| > 1 { MembersTight(ms[1..]); }
  }

  /** A new line, indented by two spaces a level. */
  function Line(level: nat): Text { [10] + seq(2 * level, _ => 32) }

  /** Each element and each member is on a line of its own, one level in, and so is the closing
   *  bracket; a space follows each colon, and there is no other white space. */
  predicate Laid(t: Syntax, level: nat) {
    match t
    case EmptyArray(ws) => ws == []
    case Array(items) => LaidItems(items, level)
    case EmptyObject(ws) => ws == []
    case Object(members) => LaidMembers(members, level)
    case _ => true
  }

  predicate LaidItems(items: Items, level: nat) {
    && items.before == Line(level + 1) && Laid(items.v, level + 1)
    && items.after == (if items.Item? then [] else Line(level))
    && (items.Item? ==> LaidItems(items.rest, level))
  }

  predicate LaidMembers(m: Members, level: nat) {
    && m.before == Line(level + 1) && m.mid == [] && m.gap == [32] && Laid(m.v, level + 1)
    && m.after == (if m.Member? then [] else Line(level))
    && (m.Member? ==> LaidMembers(m.more, level))
  }

  lemma IndentMore(cur: Text, level: nat)
    requires cur == seq(2 * level, _ => 32)
    ensures cur + [SPACE, SPACE] == seq(2 * (level + 1), _ => 32)
    ensures [NEWLINE] + cur == Line(level) && [NEWLINE] + (cur + [SPACE, SPACE]) == Line(level + 1)
  {}

  lemma {:induction false} PrettyIsLaid(v: Json, cur: Text, level: nat)
    requires Encodable(v) && cur == seq(2 * level, _ => 32)
    ensures Laid(Spelling(v, [SPACE, SPACE], cur), level)
    decreases v, 1
  {
    match v
    case Slice(es) => if es != [] { ItemsLaid(es, cur, level); }
    case Map(ms) => if ms != [] { MembersLaid(ms, cur, level); }
    case _ =>
  }

  lemma {:induction false} ItemsLaid(es: seq<Json>, cur: Text, level: nat)
    requires es != [] && (forall e | e in es :: Encodable(e)) && cur == seq(2 * level, _ => 32)
    ensures LaidItems(SpellItems(es, [SPACE, SPACE], cur), level)
    decreases es, 0
  {
    hide Line;
    IndentMore(cur, level);
    PrettyIsLaid(es[0], cur + [SPACE, SPACE], level + 1);
    if |es| > 1 { ItemsLaid(es[1..], cur, level); }
  }

  lemma {:induction false} MembersLaid(ms: seq<Pair<Text, Json>>, cur: Text, level: nat)
    requires ms != [] && (forall m | m in ms :: Encodable(m.val)) && cur == seq(2 * level, _ => 32)
    ensures LaidMembers(SpellMembers(ms, [SPACE, SPACE], cur), level)
    decreases ms, 0
  {
    hide Line;
    IndentMore(cur, level);
    var Pair(_, e) := ms[0];
    assert e < ms[0];
    PrettyIsLaid(e, cur + [SPACE, SPACE], level + 1);
    if |ms| > 1 { MembersLaid(ms[1..], cur, level); }
  }

  /* -------------------------------------------------------- a whole text */

  /** {"a\/b": [-12, true]} */
  function Sample(): Text {
    Ascii("{\"a\\/b\": [-12, true]}")
  }

  function SampleKey(): seq<Piece> { [Plain('a' as int), Short('/' as int), Plain('b' as int)] }

  function SampleItems(): Items {
    Item([], Number(Num(true, Ascii("12"), [], NoExp)), [], LastItem([32], True, []))
  }

  function SampleTree(): Syntax { Object(LastMember([], SampleKey(), [], [32], Array(SampleItems()), [])) }

  function SampleValue(): Json {
    Map([Pair(Ascii("a/b"), Slice([Int(-12), Bool(true)]))])
  }

  lemma TwelveIs()
    ensures Digits([1, 2]) && Val([1, 2]) == 12 && DigitsOf(Ascii("12")) == [1, 2]
  {
    assert Val([1, 2]) == 12 by { assert [1, 2][..1] == [1]; }
  }

  lemma NumberMeans12()
    ensures ValidNum(Num(true, Ascii("12"), [], NoExp)) && NumValue(Num(true, Ascii("12"), [], NoExp)) == Some(Int(-12))
  {
    TwelveIs();
  }

  lemma KeyMeans()
    ensures ValidPieces(SampleKey()) && Decode(SampleKey()) == Ascii("a/b")
  {
    assert SampleKey()[1..] == [Short('/' as int), Plain('b' as int)];
    assert SampleKey()[1..][1..] == [Plain('b' as int)];
    assert Ascii("a/b") == ['a' as int, '/' as int, 'b' as int];
  }

  lemma ItemsSampleMean()
    ensures ValidItems(SampleItems()) && Elements(SampleItems()) == [Int(-12), Bool(true)]
    ensures ItemsDepth(SampleItems()) == 1
  {
    NumberMeans12();
    hide NumValue, ValidNum;
  }

  lemma SampleMeans()
    ensures Valid(SampleTree()) && Meaning(SampleTree()) == SampleValue() && Depth(SampleTree()) == 3
  {
    KeyMeans();
    ItemsSampleMean();
    hide Decode, ValidPieces, Elements, ValidItems, ItemsDepth, SampleKey, SampleItems;
  }

  lemma KeyWritten()
    ensures WriteString(SampleKey()) == ['"' as int, 'a' as int, '\\' as int, '/' as int, 'b' as int, '"' as int]
  {
    assert SampleKey()[1..] == [Short('/' as int), Plain('b' as int)];
    assert SampleKey()[1..][1..] == [Plain('b' as int)];
    assert WritePieces([Plain('b' as int)]) == ['b' as int];
    assert WritePieces(SampleKey()[1..]) == ['\\' as int, '/' as int, 'b' as int];
  }

  lemma NumberWritten()
    ensures Write(Number(Num(true, Ascii("12"), [], NoExp))) == ['-' as int, '1' as int, '2' as int]
  {
    assert Ascii("12") == ['1' as int, '2' as int];
  }

  lemma LastWritten()
    ensures WriteItems(LastItem([32], True, []))
         == [32, 't' as int, 'r' as int, 'u' as int, 'e' as int, ']' as int]
  {}

  lemma ItemsWritten()
    ensures WriteItems(SampleItems())
         == ['-' as int, '1' as int, '2' as int, ',' as int, 32, 't' as int, 'r' as int, 'u' as int, 'e' as int,
             ']' as int]
  {
    NumberWritten();
    LastWritten();
    UnfoldItems([], Number(Num(true, Ascii("12"), [], NoExp)), LastItem([32], True, []));
    hide *;
  }

  lemma UnfoldItems(before: Text, v: Syntax, rest: Items)
    ensures WriteItems(Item(before, v, [], rest)) == before + (Write(v) + ([COMMA] + WriteItems(rest)))
  {
    NoSpace([COMMA] + WriteItems(rest));
    hide Write;
  }

  lemma UnfoldMember(key: seq<Piece>, v: Syntax)
    ensures Write(Object(LastMember([], key, [], [32], v, [])))
         == ['{' as int] + (WriteString(key) + ([':' as int] + ([32] + (Write(v) + ['}' as int]))))
  {
    hide WriteString;
    var k, x := WriteString(key), Write(v);
    NoSpace([CLOSE_OBJECT]);
    NoSpace([COLON] + ([32] + (x + [CLOSE_OBJECT])));
    NoSpace(k + ([COLON] + ([32] + (x + [CLOSE_OBJECT]))));
  }

  lemma SampleWritten()
    ensures Write(SampleTree()) == Sample()
  {
    UnfoldMember(SampleKey(), Array(SampleItems()));
    KeyWritten();
    ItemsWritten();
    hide WriteString, WriteItems;
  }

  /** The text is read as its value. */
  method ReadsSample() returns (r: Option<Json>)
    ensures r == Some(Map([Pair(Ascii("a/b"), Slice([Int(-12), Bool(true)]))]))
  {
    SampleMeans();
    SampleWritten();
    hide Write, Valid, Meaning, Depth, DocumentOf;
    assert [] + (Write(SampleTree()) + []) == Sample();
    assert Around(Sample(), [], SampleTree(), []);
    assert Spells(Sample(), SampleTree());
    var failure;
    r, failure := DecodeText(Sample());
  }

  /* -------------------------------------------------------- what can be written */

  /** Integers of 64 bits can be encoded, and anything made of what can be, but maps with a key twice. */
  lemma EncodableTable(n: int, s: Text, es: seq<Json>, ms: seq<Pair<Text, Json>>)
    ensures Encodable(Nil) && Encodable(Bool(true)) && Encodable(Bool(false)) && Encodable(Str(s))
    ensures Encodable(Int(n)) <==> -9223372036854775808 <= n <= 9223372036854775807
    ensures Encodable(Slice(es)) <==> forall i | 0 <= i < |es| :: Encodable(es[i])
    ensures Encodable(Map(ms)) <==>
      (forall i | 0 <= i < |ms| :: Encodable(ms[i].val))
      && forall i, j | 0 <= i < j < |ms| :: ms[i].key != ms[j].key
  {}

  /** Each slice and each map is a level, empty or not, and so is what holds nothing. */
  lemma {:induction false} LevelsTable(es: seq<Json>, ms: seq<Pair<Text, Json>>, d: nat)
    ensures Levels(Slice(es)) <= 1 + d <==> forall i | 0 <= i < |es| :: Levels(es[i]) <= d
    ensures Levels(Map(ms)) <= 1 + d <==> forall i | 0 <= i < |ms| :: Levels(ms[i].val) <= d
    ensures Levels(Nil) == 1 && Levels(Bool(true)) == 1 && Levels(Int(0)) == 1 && Levels(Str([])) == 1
  {
    SliceTable(es, d);
    MapTable(ms, d);
  }

  lemma {:induction false} SliceTable(es: seq<Json>, d: nat)
    ensures SliceLevels(es) <= d <==> forall i | 0 <= i < |es| :: Levels(es[i]) <= d
  {
    hide Levels;
    if es != [] {
      SliceTable(es[1..], d);
      assert forall i | 0 < i < |es| :: es[i] == es[1..][i - 1];
    }
  }

  lemma {:induction false} MapTable(ms: seq<Pair<Text, Json>>, d: nat)
    ensures MapLevels(ms) <= d <==> forall i | 0 <= i < |ms| :: Levels(ms[i].val) <= d
  {
    hide Levels;
    if ms != [] {
      MapTable(ms[1..], d);
      assert forall i | 0 < i < |ms| :: ms[i] == ms[1..][i - 1];
    }
  }

  /* -------------------------------------------------------- what the writer escapes */

  /** Quotation marks, backslashes and controls are escaped, in the short form where there is one, and
   *  nothing else is. */
  lemma WriterTable(c: Byte)
    ensures WritePiece(PieceOf(c)) ==
      match c as char
      case '"' => ['\\' as int, '"' as int]
      case '\\' => ['\\' as int, '\\' as int]
      case _ =>
        if c == 8 then ['\\' as int, 'b' as int]
        else if c == 9 then ['\\' as int, 't' as int]
        else if c == 10 then ['\\' as int, 'n' as int]
        else if c == 12 then ['\\' as int, 'f' as int]
        else if c == 13 then ['\\' as int, 'r' as int]
        else if c < 32 then ['\\' as int, 'u' as int, '0' as int, '0' as int, Hex(c / 16), Hex(c % 16)]
        else [c]
  {
    if c < 32 {
      HexIs(c / 16);
      HexIs(c % 16);
      hide HexChar, Hex;
    }
  }

  lemma HexIs(x: nat)
    requires x < 16
    ensures HexChar(x) == Hex(x)
  {}

  function Hex(x: nat): Byte
    requires x < 16
  {
    "0123456789abcdef"[x] as int % 256
  }
}
