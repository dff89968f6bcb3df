/** The parser of runtime/src/json.c, step by step: a position, a depth and the first error. */
module JsonReader {
  import opened Options
  import opened Bytes
  import opened AssocList
  import opened DecimalDigits
  import opened DecimalOps
  import opened DecimalText
  import opened JsonSyntax
  import opened JsonGrammar
  import opened JsonParse

  datatype Failure = Failure(at: nat, why: Why)

  /* -------------------------------------------------------- what is found is valid */

  lemma ValueValid(s: Text, i: nat, depth: nat)
    requires i <= |s| && ValueAt(s, i, depth).Got?
    ensures Valid(ValueAt(s, i, depth).t)
  {
    ValueSound(s, i, depth);
  }

  lemma StringValid(s: Text, i: nat)
    requires i <= |s| && StringAt(s, i).Got?
    ensures ValidPieces(StringAt(s, i).t)
  {
    StringSound(s, i);
  }

  lemma NumberValid(s: Text, i: nat)
    requires i <= |s| && NumberAt(s, i).Got?
    ensures Valid(NumberAt(s, i).t)
  {
    NumberSound(s, i);
  }

  lemma ArrayValid(s: Text, i: nat, depth: nat)
    requires ByteAt(s, i, OPEN_ARRAY) && 1 <= depth <= MAX_DEPTH && ArrayAt(s, i, depth).Got?
    ensures Valid(ArrayAt(s, i, depth).t)
  {
    ArraySound(s, i, depth);
  }

  lemma ObjectValid(s: Text, i: nat, depth: nat)
    requires ByteAt(s, i, OPEN_OBJECT) && 1 <= depth <= MAX_DEPTH && ObjectAt(s, i, depth).Got?
    ensures Valid(ObjectAt(s, i, depth).t)
  {
    ObjectSound(s, i, depth);
  }

  lemma ItemsValid(s: Text, i: nat, depth: nat)
    requires i <= |s| && ItemsAt(s, i, depth).Got?
    ensures ValidItems(ItemsAt(s, i, depth).t)
  {
    ItemsSound(s, i, depth);
  }

  lemma MembersValid(s: Text, i: nat, depth: nat)
    requires i <= |s| && MembersAt(s, i, depth).Got?
    ensures ValidMembers(MembersAt(s, i, depth).t)
  {
    MembersSound(s, i, depth);
  }

  /* -------------------------------------------------------- what the methods are to find */

  /** The tree found, as what it means. */
  ghost function ValueOf(s: Text, i: nat, depth: nat): (r: Found<Json>)
    requires i <= |s|
    ensures r.Got? ==> i < r.next <= |s|
  {
    match ValueAt(s, i, depth)
    case Bad(at, why) => Bad(at, why)
    case Got(t, j) => ValueValid(s, i, depth); Got(Meaning(t), j)
  }

  ghost function TextOf(s: Text, i: nat): (r: Found<Text>)
    requires i <= |s|
    ensures r.Got? ==> i < r.next <= |s|
  {
    match StringAt(s, i)
    case Bad(at, why) => Bad(at, why)
    case Got(ps, j) => StringValid(s, i); Got(Decode(ps), j)
  }

  ghost function QuotedOf(s: Text, i: nat): (r: Found<Text>)
    requires i <= |s|
    ensures r.Got? ==> i < r.next <= |s|
  {
    if !ByteAt(s, i, QUOTE) then Bad(i, NoString) else TextOf(s, i + 1)
  }

  ghost function NumberOf(s: Text, i: nat): (r: Found<Json>)
    requires i <= |s|
    ensures r.Got? ==> i < r.next <= |s|
  {
    match NumberAt(s, i)
    case Bad(at, why) => Bad(at, why)
    case Got(t, j) => NumberValid(s, i); Got(Meaning(t), j)
  }

  ghost function LiteralOf(s: Text, i: nat, t: Syntax): Found<Json>
    requires Valid(t)
  {
    match LiteralAt(s, i, t)
    case Bad(at, why) => Bad(at, why)
    case Got(_, j) => Got(Meaning(t), j)
  }

  ghost function ArrayOf(s: Text, i: nat, depth: nat): (r: Found<Json>)
    requires ByteAt(s, i, OPEN_ARRAY) && 1 <= depth <= MAX_DEPTH
    ensures r.Got? ==> i < r.next <= |s|
  {
    match ArrayAt(s, i, depth)
    case Bad(at, why) => Bad(at, why)
    case Got(t, j) => ArrayValid(s, i, depth); Got(Meaning(t), j)
  }

  ghost function ObjectOf(s: Text, i: nat, depth: nat): (r: Found<Json>)
    requires ByteAt(s, i, OPEN_OBJECT) && 1 <= depth <= MAX_DEPTH
    ensures r.Got? ==> i < r.next <= |s|
  {
    match ObjectAt(s, i, depth)
    case Bad(at, why) => Bad(at, why)
    case Got(t, j) => ObjectValid(s, i, depth); Got(Meaning(t), j)
  }

  ghost function ElementsOf(s: Text, i: nat, depth: nat): (r: Found<seq<Json>>)
    requires i <= |s|
    ensures r.Got? ==> i < r.next <= |s|
  {
    match ItemsAt(s, i, depth)
    case Bad(at, why) => Bad(at, why)
    case Got(items, j) => ItemsValid(s, i, depth); Got(Elements(items), j)
  }

  ghost function EntriesOf(s: Text, i: nat, depth: nat, acc: seq<Pair<Text, Json>>): (r: Found<seq<Pair<Text, Json>>>)
    requires i <= |s|
    ensures r.Got? ==> i < r.next <= |s|
  {
    match MembersAt(s, i, depth)
    case Bad(at, why) => Bad(at, why)
    case Got(members, j) => MembersValid(s, i, depth); Got(Entries(members, acc), j)
  }

  /** A key, a colon and a value. */
  ghost function MemberOf(s: Text, i: nat, depth: nat): (r: Found<Pair<Text, Json>>)
    requires i <= |s|
    ensures r.Got? ==> i < r.next <= |s|
  {
    match QuotedOf(s, Skip(s, i))
    case Bad(at, why) => Bad(at, why)
    case Got(key, b) =>
      var c := Skip(s, b);
      if !ByteAt(s, c, COLON) then Bad(c, NoColon)
      else
        match ValueOf(s, c + 1, depth)
        case Bad(at, why) => Bad(at, why)
        case Got(v, j) => Got(Pair(key, v), j)
  }

  ghost function Prepend<T>(x: seq<T>, r: Found<seq<T>>): Found<seq<T>> {
    if r.Got? then Got(x + r.t, r.next) else r
  }

  /* -------------------------------------------------------- strings, piece by piece */

  /** Where the first scan of jstring stops. */
  function ScanEnd(s: Text, e: nat): (r: nat)
    ensures r >= e
    decreases |s| - e
  {
    if e >= |s| || s[e] == QUOTE || s[e] < 0x20 then e
    else if s[e] == BACKSLASH then ScanEnd(s, e + 2)
    else ScanEnd(s, e + 1)
  }

  predicate PlainAt(s: Text, j: nat) { j < |s| && s[j] >= 0x20 && s[j] != QUOTE && s[j] != BACKSLASH }

  /** A string with no escape is its bytes. */
  lemma {:induction false} PlainRun(s: Text, i: nat, end: nat)
    requires i <= end && ByteAt(s, end, QUOTE) && forall j | i <= j < end :: PlainAt(s, j)
    ensures TextOf(s, i) == Got(s[i..end], end + 1)
    decreases end - i
  {
    if i < end {
      PlainRun(s, i + 1, end);
      assert PlainAt(s, i);
      OnePiece(s, i);
      assert s[i..end] == [s[i]] + s[i + 1..end];
    } else {
      assert s[i..end] == [];
    }
  }

  /** A code follows that a high surrogate is taken with. */
  ghost predicate CodeAt(s: Text, j: nat) {
    j < |s| && s[j] != QUOTE && PieceAt(s, j).Got? && PieceAt(s, j).t.Code?
  }

  ghost predicate HighPiece(p: Piece) { p.Code? && IsHex(p.h) && HighSurrogate(HexValue(p.h)) }

  lemma OnePiece(s: Text, i: nat)
    requires i < |s| && s[i] != QUOTE && PieceAt(s, i).Got?
    requires !(HighPiece(PieceAt(s, i).t) && CodeAt(s, PieceAt(s, i).next))
    ensures ValidPiece(PieceAt(s, i).t)
    ensures TextOf(s, i) == Prepend(PieceText(PieceAt(s, i).t), TextOf(s, PieceAt(s, i).next))
  {
    PieceSound(s, i);
    var p, j := PieceAt(s, i).t, PieceAt(s, i).next;
    if StringAt(s, j).Got? {
      var ps := StringAt(s, j).t;
      StringSound(s, j);
      StringSound(s, i);
      assert ([p] + ps)[1..] == ps;
      NextPiece(s, j);
      hide ValidPiece, PieceAt, Decode, PieceText;
      DecodeOne(p, ps);
    }
  }

  lemma NextPiece(s: Text, j: nat)
    requires j <= |s| && StringAt(s, j).Got?
    ensures var ps := StringAt(s, j).t;
      ps != [] && ps[0].Code? ==> CodeAt(s, j)
  {}

  lemma DecodeOne(p: Piece, ps: seq<Piece>)
    requires ValidPiece(p) && ValidPieces(ps) && !(HighPiece(p) && ps != [] && ps[0].Code?)
    ensures ValidPieces([p] + ps) && Decode([p] + ps) == PieceText(p) + Decode(ps)
  {
    assert ([p] + ps)[1..] == ps;
  }

  lemma TwoPieces(s: Text, i: nat, hi: nat, lo: nat)
    requires i < |s| && s[i] != QUOTE && PieceAt(s, i).Got? && HighPiece(PieceAt(s, i).t)
    requires CodeAt(s, PieceAt(s, i).next) && IsHex(PieceAt(s, PieceAt(s, i).next).t.h)
    requires hi == HexValue(PieceAt(s, i).t.h) && lo == HexValue(PieceAt(s, PieceAt(s, i).next).t.h)
    ensures TextOf(s, i) == Prepend(PairText(hi, lo), TextOf(s, PieceAt(s, PieceAt(s, i).next).next))
  {
    PieceSound(s, i);
    var p, j := PieceAt(s, i).t, PieceAt(s, i).next;
    PieceSound(s, j);
    var q, k := PieceAt(s, j).t, PieceAt(s, j).next;
    if StringAt(s, k).Bad? {
      assert StringAt(s, j) == Bad(StringAt(s, k).at, StringAt(s, k).why);
    } else {
      var ps := StringAt(s, k).t;
      StringSound(s, k);
      StringSound(s, i);
      assert StringAt(s, j) == Got([q] + ps, StringAt(s, k).next);
      assert StringAt(s, i).t == [p] + ([q] + ps);
      DecodeTwo(p, q, ps);
    }
  }

  lemma DecodeTwo(p: Piece, q: Piece, ps: seq<Piece>)
    requires ValidPiece(p) && ValidPiece(q) && ValidPieces(ps) && HighPiece(p) && q.Code?
    ensures ValidPieces([p] + ([q] + ps))
    ensures Decode([p] + ([q] + ps)) == PairText(HexValue(p.h), HexValue(q.h)) + Decode(ps)
  {
    var all := [p] + ([q] + ps);
    assert all[2..] == ps && Pairs(all);
  }

  lemma PieceFails(s: Text, i: nat)
    requires i < |s| && s[i] != QUOTE && PieceAt(s, i).Bad?
    ensures TextOf(s, i) == Bad(PieceAt(s, i).at, PieceAt(s, i).why)
  {}

  /** The first scan and the second step over a piece alike. */
  lemma ScanOver(s: Text, i: nat)
    requires i < |s| && s[i] != QUOTE && PieceAt(s, i).Got?
    ensures ScanEnd(s, i) == ScanEnd(s, PieceAt(s, i).next)
  {
    PieceSound(s, i);
    match PieceAt(s, i).t
    case Plain(_) =>
    case Short(_) =>
    case Code(h) =>
      HexScans(s, i + 2);
  }

  lemma HexScans(s: Text, i: nat)
    requires i + 4 <= |s| && IsHex(s[i..i + 4])
    ensures ScanEnd(s, i) == ScanEnd(s, i + 4)
  {
    HexStep(s, i, s[i..i + 4][0]);
    HexStep(s, i + 1, s[i..i + 4][1]);
    HexStep(s, i + 2, s[i..i + 4][2]);
    HexStep(s, i + 3, s[i..i + 4][3]);
  }

  lemma HexStep(s: Text, i: nat, c: Byte)
    requires i < |s| && s[i] == c && HexDigit(c) >= 0
    ensures ScanEnd(s, i) == ScanEnd(s, i + 1)
  {}

  /** From at to i stand pieces that decode to x. */
  ghost predicate Stepped(s: Text, at: nat, i: nat, x: Text) {
    && at < i <= |s| && |x| <= i - at && ScanEnd(s, at) == ScanEnd(s, i)
    && TextOf(s, at) == Prepend(x, TextOf(s, i))
  }

  lemma StepOne(s: Text, i: nat)
    requires i < |s| && s[i] != QUOTE && PieceAt(s, i).Got?
    requires !(HighPiece(PieceAt(s, i).t) && CodeAt(s, PieceAt(s, i).next))
    ensures ValidPiece(PieceAt(s, i).t) && Stepped(s, i, PieceAt(s, i).next, PieceText(PieceAt(s, i).t))
  {
    hide ScanEnd, TextOf;
    PieceSound(s, i);
    OnePiece(s, i);
    ScanOver(s, i);
  }

  lemma StepPlain(s: Text, i: nat)
    requires i < |s| && s[i] >= 0x20 && s[i] != QUOTE && s[i] != BACKSLASH
    ensures Stepped(s, i, i + 1, [s[i]])
  {
    hide Stepped;
    StepOne(s, i);
  }

  lemma StepShort(s: Text, i: nat)
    requires i + 1 < |s| && s[i] == BACKSLASH && Unescaped(s[i + 1]) >= 0
    ensures Stepped(s, i, i + 2, [Unescaped(s[i + 1])])
  {
    hide Stepped;
    StepOne(s, i);
  }

  ghost predicate HexAt(s: Text, i: nat) { i + 4 <= |s| && IsHex(s[i..i + 4]) }

  predicate Escape(s: Text, i: nat) { i + 1 < |s| && s[i] == BACKSLASH && s[i + 1] == SMALL_U }

  lemma CodePiece(s: Text, i: nat)
    requires Escape(s, i) && HexAt(s, i + 2)
    ensures s[i] != QUOTE && PieceAt(s, i) == Got(Code(s[i + 2..i + 6]), i + 6)
  {}

  /** A code by itself. */
  lemma StepCode(s: Text, i: nat)
    requires Escape(s, i) && HexAt(s, i + 2)
    requires HighSurrogate(HexValue(s[i + 2..i + 6])) ==> !(Escape(s, i + 6) && HexAt(s, i + 8))
    ensures Stepped(s, i, i + 6, Utf8(Lone(HexValue(s[i + 2..i + 6]))))
  {
    CodePiece(s, i);
    assert CodeAt(s, i + 6) ==> Escape(s, i + 6) && HexAt(s, i + 8);
    hide Stepped, PieceAt;
    StepOne(s, i);
  }

  lemma StepPair(s: Text, i: nat, hi: nat, lo: nat)
    requires Escape(s, i) && HexAt(s, i + 2) && hi == HexValue(s[i + 2..i + 6]) && HighSurrogate(hi)
    requires Escape(s, i + 6) && HexAt(s, i + 8) && lo == HexValue(s[i + 8..i + 12])
    ensures Stepped(s, i, i + 12, PairText(hi, lo))
  {
    CodePiece(s, i);
    CodePiece(s, i + 6);
    hide TextOf, PieceAt, ScanEnd, PairText;
    ScanOver(s, i);
    ScanOver(s, i + 6);
    TwoPieces(s, i, hi, lo);
  }

  /** The second of a pair is bad, or a code is. */
  lemma SecondFails(s: Text, i: nat)
    requires Escape(s, i) && HexAt(s, i + 2) && Escape(s, i + 6) && i + 12 <= |s| && !HexAt(s, i + 8)
    ensures TextOf(s, i) == Bad(i + 8, BadHexDigit)
  {
    CodePiece(s, i);
    PieceFails(s, i + 6);
  }

  lemma FirstFails(s: Text, i: nat)
    requires Escape(s, i) && !HexAt(s, i + 2)
    ensures TextOf(s, i) == Bad(i + 2, if i + 6 > |s| then TruncatedEscape else BadHexDigit)
  {
    PieceFails(s, i);
  }

  lemma Prepended<T>(a: Found<seq<T>>, x: seq<T>, b: Found<seq<T>>, y: seq<T>, c: Found<seq<T>>)
    requires a == Prepend(x, b) && b == Prepend(y, c)
    ensures a == Prepend(x + y, c)
  {
    if c.Got? { assert x + (y + c.t) == (x + y) + c.t; }
  }

  /* -------------------------------------------------------- the parser */

  class Parser {
    const s: Text
    var i: nat
    var depth: nat
    var failure: Option<Failure>

    constructor (s: Text)
      ensures this.s == s && i == 0 && depth == 0 && failure == None
    {
      this.s, i, depth, failure := s, 0, 0, None;
    }

    ghost predicate Ready()
      reads this
    {
      i <= |s| && failure == None
    }

    /** A method went as r says. */
    ghost predicate Went<T>(r: Found<T>, ok: bool, out: T)
      reads this
    {
      match r
      case Got(t, j) => ok && out == t && i == j && failure == None && i <= |s|
      case Bad(at, why) => !ok && failure == Some(Failure(at, why))
    }

    /** jfail: the first error stays. */
    method JFail(why: Why)
      modifies this`failure
      ensures old(failure).None? ==> failure == Some(Failure(i, why))
      ensures old(failure).Some? ==> failure == old(failure)
    {
      if failure.None? { failure := Some(Failure(i, why)); }
    }

    method JSkip()
      requires i <= |s|
      modifies this`i
      ensures old(i) <= i <= |s| && i == Skip(s, old(i))
    {
      while i < |s| && IsWs(s[i])
        invariant i <= |s| && Skip(s, i) == Skip(s, old(i))
      {
        i := i + 1;
      }
    }

    /** read4 */
    method Read4() returns (ok: bool, r: nat)
      requires Ready()
      modifies this`i, this`failure
      ensures ok <==> old(i) + 4 <= |s| && IsHex(s[old(i)..old(i) + 4])
      ensures ok ==> i == old(i) + 4 && failure == None && r == HexValue(s[old(i)..old(i) + 4])
      ensures !ok ==> failure == Some(Failure(old(i), if old(i) + 4 > |s| then TruncatedEscape else BadHexDigit))
    {
      r := 0;
      if i + 4 > |s| {
        JFail(TruncatedEscape);
        return false, r;
      }
      ghost var h := s[i..i + 4];
      var v := 0;
      for k := 0 to 4
        invariant forall j | 0 <= j < k :: HexDigit(h[j]) >= 0
        invariant i == old(i) && failure == None && v == Hexes(h, k)
      {
        var d := HexDigit(s[i + k]);
        assert s[i + k] == h[k];
        if d < 0 {
          JFail(BadHexDigit);
          return false, r;
        }
        v := v * 16 + d;
      }
      i := i + 4;
      HexesAll(h);
      return true, v;
    }

    /** put_utf8 */
    method PutUtf8(r: nat, buf: array<Byte>, o: nat) returns (n: nat)
      requires r < 0x110000 && o + |Utf8(r)| <= buf.Length
      modifies buf
      ensures n == |Utf8(r)| && buf[..o + n] == old(buf[..o]) + Utf8(r)
    {
      if r < 0x80 {
        buf[o] := r;
        n := 1;
      } else if r < 0x800 {
        buf[o], buf[o + 1] := 0xC0 + r / 64, 0x80 + r % 64;
        n := 2;
      } else if r < 0x10000 {
        buf[o], buf[o + 1], buf[o + 2] := 0xE0 + r / 4096, 0x80 + r / 64 % 64, 0x80 + r % 64;
        n := 3;
      } else {
        buf[o], buf[o + 1] := 0xF0 + r / 262144, 0x80 + r / 4096 % 64;
        buf[o + 2], buf[o + 3] := 0x80 + r / 64 % 64, 0x80 + r % 64;
        n := 4;
      }
    }

    /** The first scan of jstring: where the string ends, and whether anything in it is escaped. */
    method FindEnd() returns (end: nat, escaped: bool)
      requires i <= |s|
      ensures end == ScanEnd(s, i) && (!escaped ==> forall j | i <= j < end :: PlainAt(s, j))
    {
      end, escaped := i, false;
      while end < |s| && s[end] != QUOTE
        invariant end >= i && ScanEnd(s, end) == ScanEnd(s, i)
        invariant !escaped ==> forall j | i <= j < end :: PlainAt(s, j)
        decreases |s| - end
      {
        if s[end] < 0x20 { break; }
        if s[end] == BACKSLASH {
          escaped := true;
          end := end + 1;
        }
        end := end + 1;
      }
    }

    /** A high surrogate and the code after it. */
    method PutPair(hi: nat, lo: nat, buf: array<Byte>, o: nat) returns (n: nat)
      requires HighSurrogate(hi) && lo < 0x10000 && o + |PairText(hi, lo)| <= buf.Length
      modifies buf
      ensures n == |PairText(hi, lo)| && buf[..o + n] == old(buf[..o]) + PairText(hi, lo)
    {
      hide Utf8;
      if LowSurrogate(lo) {
        n := PutUtf8(0x10000 + (hi - 0xD800) * 0x400 + (lo - 0xDC00), buf, o);
      } else {
        n := PutUtf8(REPLACEMENT, buf, o);
        var k := PutUtf8(Lone(lo), buf, o + n);
        n := n + k;
      }
    }

    /** A \u escape, and the one after it if they are taken together. */
    method JCode(buf: array<Byte>, o: nat, ghost at: nat) returns (ok: bool, n: nat, ghost x: Text)
      requires Ready() && i == at + 2 && Escape(s, at)
      requires o + (if ScanEnd(s, at) < |s| then ScanEnd(s, at) else |s|) - at <= buf.Length
      modifies this`i, this`failure, buf
      ensures ok ==> Ready() && Stepped(s, at, i, x) && n == o + |x| && n <= buf.Length
      ensures ok ==> buf[..n] == old(buf[..o]) + x
      ensures !ok ==> TextOf(s, at).Bad? && failure == Some(Failure(TextOf(s, at).at, TextOf(s, at).why))
    {
      hide Stepped, TextOf, ScanEnd, HexAt, IsHex, HexValue, Utf8, PairText;
      n, x := o, [];
      var r: nat;
      ok, r := Read4();
      HexAtIs(s, at + 2);
      if !ok {
        FirstFails(s, at);
        return;
      }
      if HighSurrogate(r) && i + 6 <= |s| && s[i] == BACKSLASH && s[i + 1] == SMALL_U {
        i := i + 2;
        var lo: nat;
        ok, lo := Read4();
        HexAtIs(s, at + 8);
        if !ok {
          SecondFails(s, at);
          return;
        }
        StepPair(s, at, r, lo);
        SteppedFits(s, at, i, PairText(r, lo));
        n := PutPair(r, lo, buf, o);
        n := o + n;
        x := PairText(r, lo);
      } else {
        HexAtIs(s, at + 8);
        StepCode(s, at);
        SteppedFits(s, at, i, Utf8(Lone(r)));
        n := PutUtf8(Lone(r), buf, o);
        n := o + n;
        x := Utf8(Lone(r));
      }
    }

    /** The second loop of jstring, into a buffer the size of the string's own span. */
    method JEscaped(span: nat) returns (ok: bool, out: Text)
      requires Ready() && i + span == if ScanEnd(s, i) < |s| then ScanEnd(s, i) else |s|
      modifies this`i, this`failure
      ensures Went(TextOf(s, old(i)), ok, out)
      ensures ok ==> |out| <= span
    {
      hide TextOf, ScanEnd, Stepped, Prepend;
      var start := i;
      var buf := new Byte[span + 8](_ => 0);
      var o := 0;
      out := [];
      PrependNone(s, i, buf[..0]);
      while i < |s| && s[i] != QUOTE
        invariant Ready() && o <= i - start <= span && buf.Length == span + 8
        invariant ScanEnd(s, i) == ScanEnd(s, start) && TextOf(s, start) == Prepend(buf[..o], TextOf(s, i))
        decreases |s| - i
      {
        ghost var at := i;
        ghost var had := buf[..o];
        ghost var x: Text := [];
        var c := s[i];
        i := i + 1;
        if c < 0x20 {
          i := i - 1;
          ControlFails(s, at, had);
          JFail(ControlCharacter);
          return false, out;
        }
        if c != BACKSLASH {
          StepPlain(s, at);
          buf[o] := c;
          o := o + 1;
          x := [c];
        } else {
          if i >= |s| {
            CutShort(s, at);
            break;
          }
          var e := s[i];
          i := i + 1;
          if e == SMALL_U {
            ok, o, x := JCode(buf, o, at);
            if !ok {
              StillBad(s, at, had);
              return false, out;
            }
          } else if Unescaped(e) >= 0 {
            StepShort(s, at);
            buf[o] := Unescaped(e);
            o := o + 1;
            x := [Unescaped(e)];
          } else {
            i := i - 1;
            EscapeFails(s, at, had);
            JFail(UnknownEscape);
            return false, out;
          }
        }
        assert buf[..o] == had + x;
        SteppedOn(s, start, had, at, i, x);
      }
      AtEnd(s, i);
      if i >= |s| {
        StillBad(s, i, buf[..o]);
        JFail(Unterminated);
        return false, out;
      }
      GotAll(s, i, buf[..o]);
      i := i + 1;
      return true, buf[..o];
    }

    /** jstring */
    method JString() returns (ok: bool, out: Text)
      requires Ready()
      modifies this`i, this`failure
      ensures Went(QuotedOf(s, old(i)), ok, out)
    {
      hide TextOf, ScanEnd;
      if i >= |s| || s[i] != QUOTE {
        JFail(NoString);
        return false, [];
      }
      i := i + 1;
      var end, escaped := FindEnd();
      ScanForward(s, i);
      if !escaped && end < |s| && s[end] == QUOTE {
        PlainRun(s, i, end);
        out := s[i..end];
        i := end + 1;
        return true, out;
      }
      var span := (if end < |s| then end else |s|) - i;
      ok, out := JEscaped(span);
    }

    method JDigits()
      requires i <= |s|
      modifies this`i
      ensures i == DigitsEnd(s, old(i))
    {
      while i < |s| && IsDigit(s[i])
        invariant i <= |s| && DigitsEnd(s, i) == DigitsEnd(s, old(i))
      {
        i := i + 1;
      }
    }

    /** A part of jnumber went as r says. */
    ghost predicate Passed<T>(r: Found<T>, ok: bool)
      reads this
    {
      match r
      case Got(_, j) => ok && i == j && failure == None && i <= |s|
      case Bad(at, why) => !ok && failure == Some(Failure(at, why))
    }

    method JWhole() returns (ok: bool)
      requires Ready()
      modifies this`i, this`failure
      ensures Passed(WholeAt(s, old(i)), ok)
    {
      if i >= |s| || !IsDigit(s[i]) {
        JFail(InvalidValue);
        return false;
      }
      if s[i] == DIGIT0 {
        i := i + 1;
        if i < |s| && IsDigit(s[i]) {
          JFail(LeadingZero);
          return false;
        }
      } else {
        JDigits();
      }
      return true;
    }

    method JFrac() returns (ok: bool, frac: bool)
      requires Ready()
      modifies this`i, this`failure
      ensures Passed(FracAt(s, old(i)), ok)
      ensures ok ==> (frac <==> FracAt(s, old(i)).t != [])
    {
      if i >= |s| || s[i] != DOT { return true, false; }
      i := i + 1;
      if i >= |s| || !IsDigit(s[i]) {
        JFail(NoFractionDigit);
        return false, true;
      }
      JDigits();
      return true, true;
    }

    method JExp() returns (ok: bool, exp: bool)
      requires Ready()
      modifies this`i, this`failure
      ensures Passed(ExpAt(s, old(i)), ok)
      ensures ok ==> (exp <==> ExpAt(s, old(i)).t.Exp?)
    {
      if i >= |s| || (s[i] != SMALL_E && s[i] != LARGE_E) { return true, false; }
      i := i + 1;
      if i < |s| && (s[i] == PLUS || s[i] == MINUS) { i := i + 1; }
      if i >= |s| || !IsDigit(s[i]) {
        JFail(NoExponentDigit);
        return false, true;
      }
      JDigits();
      return true, true;
    }

    /** jnumber */
    method JNumber() returns (ok: bool, out: Json)
      requires Ready()
      modifies this`i, this`failure
      ensures Went(NumberOf(s, old(i)), ok, out)
    {
      hide WholeAt, FracAt, ExpAt, NumValue, WriteNum, ValidNum;
      out := Nil;
      var start := i;
      if i < |s| && s[i] == MINUS { i := i + 1; }
      ok := JWhole();
      if !ok { return; }
      var frac, exp;
      ok, frac := JFrac();
      if !ok { return; }
      ok, exp := JExp();
      if !ok { return; }
      NumberDone(s, start, i);
      hide NumAt, NumberOf, ValidNum;
      ghost var num := NumAt(s, start).t;
      var tmp := s[start..i];
      var isint := !frac && !exp;
      if isint {
        var n := Whole(tmp);
        IntText(num);
        if n.value > MAX_INT || n.value < MIN_INT { isint := false; } else { out := Int(n.value); }
      }
      NumValueIs(num, tmp);
      if !isint {
        var r := ParseInto(tmp);
        if r.None? {
          i := start;
          JFail(OutOfRange);
          return false, out;
        }
        out := Decimal(r.value);
      }
    }

    /** jlit */
    method JLit(ghost t: Syntax, word: Text, v: Json) returns (ok: bool, out: Json)
      requires Ready() && Valid(t) && word == Write(t) && v == Meaning(t)
      modifies this`i, this`failure
      ensures Went(LiteralOf(s, old(i), t), ok, out)
    {
      hide Write, Valid, Meaning;
      if |word| > |s| - i || s[i..i + |word|] != word {
        JFail(InvalidValue);
        return false, Nil;
      }
      i := i + |word|;
      return true, v;
    }

    /** jvalue */
    method JValue() returns (ok: bool, out: Json)
      requires Ready()
      modifies this
      ensures depth == old(depth) && Went(ValueOf(s, old(i), old(depth)), ok, out)
      decreases |s| - i, 2
    {
      hide ValueOf, ArrayOf, ObjectOf, NumberOf, LiteralOf, QuotedOf, Skip;
      ghost var from := i;
      JSkip();
      ghost var j := i;
      out := Nil;
      if i >= |s| {
        ValueNone(s, from, depth);
        JFail(EndOfInput);
        return false, out;
      }
      if depth >= MAX_DEPTH {
        ValueNone(s, from, depth);
        JFail(TooDeep);
        return false, out;
      }
      var c := s[i];
      depth := depth + 1;
      ValueSome(s, from, depth - 1);
      if c == OPEN_OBJECT {
        ok, out := JObject();
      } else if c == OPEN_ARRAY {
        ok, out := JArray();
      } else if c == QUOTE {
        var text;
        ok, text := JString();
        out := Str(text);
      } else if c == 't' as int {
        ok, out := JLit(True, TrueText(), Bool(true));
      } else if c == 'f' as int {
        ok, out := JLit(False, FalseText(), Bool(false));
      } else if c == 'n' as int {
        ok, out := JLit(Null, NullText(), Nil);
      } else {
        ok, out := JNumber();
      }
      depth := depth - 1;
    }

    /** jarray */
    method JArray() returns (ok: bool, out: Json)
      requires Ready() && ByteAt(s, i, OPEN_ARRAY) && 1 <= depth <= MAX_DEPTH
      modifies this
      ensures depth == old(depth) && Went(ArrayOf(s, old(i), depth), ok, out)
      decreases |s| - i, 1
    {
      hide ValueOf, ArrayOf, ElementsOf, Skip, Prepend, Sliced;
      ghost var at := i;
      out := Nil;
      i := i + 1;
      var a: seq<Json> := [];
      JSkip();
      if i < |s| && s[i] == CLOSE_ARRAY {
        NoElements(s, at, depth);
        i := i + 1;
        return true, Slice(a);
      }
      SomeElements(s, at, depth);
      while true
        invariant Ready() && at < i && depth == old(depth)
        invariant ArrayOf(s, at, depth) == Sliced(Prepend(a, ElementsOf(s, i, depth)))
        decreases |s| - i
      {
        ghost var from := i;
        var v;
        ok, v := JValue();
        if !ok {
          ElementBad(s, from, depth, a);
          return;
        }
        ghost var j := i;
        ghost var had := a;
        a := a + [v];
        JSkip();
        ElementGot(s, from, depth, had, v, j);
        if i < |s| && s[i] == COMMA {
          i := i + 1;
          continue;
        }
        if i < |s| && s[i] == CLOSE_ARRAY {
          i := i + 1;
          return true, Slice(a);
        }
        JFail(NoArraySeparator);
        return false, out;
      }
    }

    /** jobject */
    method JObject() returns (ok: bool, out: Json)
      requires Ready() && ByteAt(s, i, OPEN_OBJECT) && 1 <= depth <= MAX_DEPTH
      modifies this
      ensures depth == old(depth) && Went(ObjectOf(s, old(i), depth), ok, out)
      decreases |s| - i, 1
    {
      hide MemberOf, ObjectOf, EntriesOf, Skip, Set, Mapped;
      ghost var at := i;
      out := Nil;
      i := i + 1;
      var m: seq<Pair<Text, Json>> := [];
      JSkip();
      if i < |s| && s[i] == CLOSE_OBJECT {
        NoMembers(s, at, depth);
        i := i + 1;
        return true, Map(m);
      }
      SomeMembers(s, at, depth);
      while true
        invariant Ready() && at < i && depth == old(depth)
        invariant ObjectOf(s, at, depth) == Mapped(EntriesOf(s, i, depth, m))
        decreases |s| - i
      {
        ghost var from := i;
        var p;
        ok, p := JMember();
        if !ok {
          MemberBad(s, from, depth, m);
          return;
        }
        ghost var j := i;
        ghost var had := m;
        m := Set(m, SameText, p.key, p.val);
        JSkip();
        MemberGot(s, from, depth, had, p, j);
        if i < |s| && s[i] == COMMA {
          i := i + 1;
          continue;
        }
        if i < |s| && s[i] == CLOSE_OBJECT {
          i := i + 1;
          return true, Map(m);
        }
        JFail(NoObjectSeparator);
        return false, out;
      }
    }

    /** One turn of jobject's loop, up to what ends the member. */
    method JMember() returns (ok: bool, p: Pair<Text, Json>)
      requires Ready() && 1 <= depth <= MAX_DEPTH
      modifies this
      ensures depth == old(depth) && Went(MemberOf(s, old(i), depth), ok, p)
      decreases |s| - i, 3
    {
      hide ValueOf, QuotedOf, Skip;
      p := Pair([], Nil);
      JSkip();
      var k, v;
      ok, k := JString();
      if !ok { return; }
      JSkip();
      if i >= |s| || s[i] != COLON {
        JFail(NoColon);
        return false, p;
      }
      i := i + 1;
      ok, v := JValue();
      p := Pair(k, v);
    }
  }

  /* -------------------------------------------------------- values, step by step */

  /** The text of an integer is read as that integer. */
  lemma IntText(n: Num)
    requires ValidNum(n)
    ensures n.frac == [] && n.exp.NoExp? ==> Whole(WriteNum(n)) == Some(Signed(n.neg, Val(DigitsOf(n.whole))))
  {
    if n.frac == [] && n.exp.NoExp? {
      var none: Text := [];
      assert none + none == none && n.whole + none == n.whole;
      assert WriteNum(n) == SignText(n.neg) + n.whole;
      var t := WriteNum(n);
      assert t[0] == if n.neg then MINUS else n.whole[0];
      assert AfterSpaces(t) == t;
      assert AfterSign(t) == n.whole;
    }
  }

  /** A number found: what is left is its value. */
  lemma NumberDone(s: Text, start: nat, next: nat)
    requires start <= |s| && NumAt(s, start).Got? && NumAt(s, start).next == next
    ensures var num := NumAt(s, start).t;
      start < next <= |s| && ValidNum(num) && s[start..next] == WriteNum(num)
      && NumberOf(s, start) == if NumValue(num).None? then Bad(start, OutOfRange) else Got(NumValue(num).value, next)
  {
    hide NumAt, NumValue, WriteNum;
    NumSound(s, start);
  }

  lemma NumValueIs(n: Num, tmp: Text)
    requires ValidNum(n) && tmp == WriteNum(n)
    ensures var x := Signed(n.neg, Val(DigitsOf(n.whole)));
      NumValue(n) == if n.frac == [] && n.exp.NoExp? && MIN_INT <= x <= MAX_INT then Some(Int(x))
                     else if Read(tmp).None? then None else Some(Decimal(Read(tmp).value))
  {
    hide Read, Val, WriteNum;
  }

  lemma ValueNone(s: Text, i: nat, depth: nat)
    requires i <= |s| && (Skip(s, i) == |s| || depth >= MAX_DEPTH)
    ensures ValueOf(s, i, depth) == Bad(Skip(s, i), if Skip(s, i) == |s| then EndOfInput else TooDeep)
  {}

  /** jvalue's dispatch. */
  lemma ValueSome(s: Text, i: nat, depth: nat)
    requires i <= |s| && Skip(s, i) < |s| && depth < MAX_DEPTH
    ensures var j := Skip(s, i);
      var c := s[j];
      ValueOf(s, i, depth)
      == if c == OPEN_OBJECT then ObjectOf(s, j, depth + 1)
         else if c == OPEN_ARRAY then ArrayOf(s, j, depth + 1)
         else if c == QUOTE then StringOf(QuotedOf(s, j))
         else if c == 't' as int then LiteralOf(s, j, True)
         else if c == 'f' as int then LiteralOf(s, j, False)
         else if c == 'n' as int then LiteralOf(s, j, Null)
         else NumberOf(s, j)
  {
    hide ObjectAt, ArrayAt, NumberAt, StringAt, Skip, Meaning;
    var j := Skip(s, i);
    if s[j] == QUOTE && QuotedAt(s, j).Got? { StringMeans(s, j); }
  }

  ghost function StringOf(r: Found<Text>): Found<Json> {
    if r.Got? then Got(Str(r.t), r.next) else Bad(r.at, r.why)
  }

  lemma StringMeans(s: Text, j: nat)
    requires j <= |s| && QuotedAt(s, j).Got?
    ensures Valid(String(QuotedAt(s, j).t))
    ensures QuotedOf(s, j) == Got(Decode(QuotedAt(s, j).t), QuotedAt(s, j).next)
    ensures Meaning(String(QuotedAt(s, j).t)) == Str(Decode(QuotedAt(s, j).t))
  {
    QuotedSound(s, j);
  }

  ghost function Sliced(r: Found<seq<Json>>): Found<Json> {
    if r.Got? then Got(Slice(r.t), r.next) else Bad(r.at, r.why)
  }

  lemma NoElements(s: Text, at: nat, depth: nat)
    requires ByteAt(s, at, OPEN_ARRAY) && 1 <= depth <= MAX_DEPTH && ByteAt(s, Skip(s, at + 1), CLOSE_ARRAY)
    ensures ArrayOf(s, at, depth) == Got(Slice([]), Skip(s, at + 1) + 1)
  {}

  lemma SomeElements(s: Text, at: nat, depth: nat)
    requires ByteAt(s, at, OPEN_ARRAY) && 1 <= depth <= MAX_DEPTH && !ByteAt(s, Skip(s, at + 1), CLOSE_ARRAY)
    ensures ArrayOf(s, at, depth) == Sliced(Prepend([], ElementsOf(s, Skip(s, at + 1), depth)))
  {
    ElementsSame(s, at + 1, depth);
    var r := ElementsOf(s, at + 1, depth);
    if r.Got? {
      assert [] + r.t == r.t;
      ItemsValid(s, at + 1, depth);
    }
  }

  /** Space before the first element makes no difference. */
  lemma ElementsSame(s: Text, i: nat, depth: nat)
    requires i <= |s|
    ensures ElementsOf(s, i, depth) == ElementsOf(s, Skip(s, i), depth)
  {
    SkipAgain(s, i);
    SameFrom(s, i, Skip(s, i), depth);
    hide ValueAt, Skip;
    ElementsBy(s, i, depth);
    ElementsBy(s, Skip(s, i), depth);
  }

  /** What comes of the rest, after an element. */
  ghost function AfterElement(s: Text, v: Json, j: nat, depth: nat): Found<seq<Json>>
    requires j <= |s|
  {
    var k := Skip(s, j);
    if ByteAt(s, k, COMMA) then Prepend([v], ElementsOf(s, k + 1, depth))
    else if ByteAt(s, k, CLOSE_ARRAY) then Got([v], k + 1)
    else Bad(k, NoArraySeparator)
  }

  /** The elements from i: the first, and the rest. */
  lemma ElementsBy(s: Text, i: nat, depth: nat)
    requires i <= |s|
    ensures ElementsOf(s, i, depth)
         == match ValueOf(s, i, depth)
            case Bad(at, why) => Bad(at, why)
            case Got(v, j) => AfterElement(s, v, j, depth)
  {
    hide ValueAt, Skip, Meaning, Valid, AllWs;
    var r := ItemsAt(s, i, depth);
    if r.Got? {
      ItemsValid(s, i, depth);
      if r.t.Item? {
        ItemsValid(s, Skip(s, ValueAt(s, i, depth).next) + 1, depth);
      } else {
        assert [Meaning(r.t.v)] + [] == [Meaning(r.t.v)];
      }
    }
  }

  lemma ElementBad(s: Text, i: nat, depth: nat, a: seq<Json>)
    requires i <= |s| && ValueOf(s, i, depth).Bad?
    ensures var r := ValueOf(s, i, depth);
      Sliced(Prepend(a, ElementsOf(s, i, depth))) == Bad(r.at, r.why)
  {
    hide ValueOf, ElementsOf;
    ElementsBy(s, i, depth);
  }

  lemma ElementGot(s: Text, i: nat, depth: nat, had: seq<Json>, v: Json, j: nat)
    requires i <= |s| && ValueOf(s, i, depth) == Got(v, j) && j <= |s|
    ensures var k := Skip(s, j);
      var r := Sliced(Prepend(had, ElementsOf(s, i, depth)));
      (ByteAt(s, k, COMMA) ==> r == Sliced(Prepend(had + [v], ElementsOf(s, k + 1, depth))))
      && (ByteAt(s, k, CLOSE_ARRAY) ==> r == Got(Slice(had + [v]), k + 1))
      && (!ByteAt(s, k, COMMA) && !ByteAt(s, k, CLOSE_ARRAY) ==> r == Bad(k, NoArraySeparator))
  {
    hide ValueOf, ElementsOf, Skip;
    ElementsBy(s, i, depth);
    var k := Skip(s, j);
    if ByteAt(s, k, COMMA) {
      Prepended(Prepend(had, ElementsOf(s, i, depth)), had, ElementsOf(s, i, depth), [v], ElementsOf(s, k + 1, depth));
    }
  }

  ghost function Mapped(r: Found<seq<Pair<Text, Json>>>): Found<Json> {
    if r.Got? then Got(Map(r.t), r.next) else Bad(r.at, r.why)
  }

  lemma NoMembers(s: Text, at: nat, depth: nat)
    requires ByteAt(s, at, OPEN_OBJECT) && 1 <= depth <= MAX_DEPTH && ByteAt(s, Skip(s, at + 1), CLOSE_OBJECT)
    ensures ObjectOf(s, at, depth) == Got(Map([]), Skip(s, at + 1) + 1)
  {}

  lemma SomeMembers(s: Text, at: nat, depth: nat)
    requires ByteAt(s, at, OPEN_OBJECT) && 1 <= depth <= MAX_DEPTH && !ByteAt(s, Skip(s, at + 1), CLOSE_OBJECT)
    ensures ObjectOf(s, at, depth) == Mapped(EntriesOf(s, Skip(s, at + 1), depth, []))
  {
    hide ValueAt, Skip, MembersAt, EntriesOf, Entries;
    EntriesSame(s, at + 1, depth, []);
    ObjectBy(s, at, depth);
  }

  lemma ObjectBy(s: Text, at: nat, depth: nat)
    requires ByteAt(s, at, OPEN_OBJECT) && 1 <= depth <= MAX_DEPTH && !ByteAt(s, Skip(s, at + 1), CLOSE_OBJECT)
    ensures ObjectOf(s, at, depth) == Mapped(EntriesOf(s, at + 1, depth, []))
  {
    hide ValueAt, Skip, MembersAt, Entries;
    if MembersAt(s, at + 1, depth).Got? { MembersValid(s, at + 1, depth); }
  }

  lemma EntriesSame(s: Text, i: nat, depth: nat, acc: seq<Pair<Text, Json>>)
    requires i <= |s|
    ensures EntriesOf(s, i, depth, acc) == EntriesOf(s, Skip(s, i), depth, acc)
  {
    SkipAgain(s, i);
    hide Skip, EntriesOf, MemberOf, AfterMember;
    MemberSame(s, i, depth);
    EntriesBy(s, i, depth, acc);
    EntriesBy(s, Skip(s, i), depth, acc);
  }

  lemma MemberSame(s: Text, i: nat, depth: nat)
    requires i <= |s| && Skip(s, Skip(s, i)) == Skip(s, i)
    ensures MemberOf(s, i, depth) == MemberOf(s, Skip(s, i), depth)
  {
    hide Skip, QuotedOf, ValueOf;
  }

  /** What comes of the rest, after a member. */
  ghost function AfterMember(s: Text, now: seq<Pair<Text, Json>>, j: nat, depth: nat): Found<seq<Pair<Text, Json>>>
    requires j <= |s|
  {
    var k := Skip(s, j);
    if ByteAt(s, k, COMMA) then EntriesOf(s, k + 1, depth, now)
    else if ByteAt(s, k, CLOSE_OBJECT) then Got(now, k + 1)
    else Bad(k, NoObjectSeparator)
  }

  /** The members from i: the first, and the rest. */
  lemma EntriesBy(s: Text, i: nat, depth: nat, acc: seq<Pair<Text, Json>>)
    requires i <= |s|
    ensures EntriesOf(s, i, depth, acc)
         == match MemberOf(s, i, depth)
            case Bad(at, why) => Bad(at, why)
            case Got(p, j) => AfterMember(s, Set(acc, SameText, p.key, p.val), j, depth)
  {
    hide Meaning, Valid, QuotedAt, QuotedOf, ValueAt, Decode, Set, AllWs, Entries, Skip, ValueOf;
    hide MemberEnd, AfterMember;
    if MembersAt(s, i, depth).Got? { MembersValid(s, i, depth); }
    var a := Skip(s, i);
    QuotedIs(s, a);
    if QuotedAt(s, a).Got? {
      var b := QuotedAt(s, a).next;
      var c := Skip(s, b);
      if ByteAt(s, c, COLON) {
        ValueBy(s, c + 1, depth);
        if ValueAt(s, c + 1, depth).Got? {
          EndBy(s, i, a, QuotedAt(s, a).t, b, c, ValueAt(s, c + 1, depth).t, ValueAt(s, c + 1, depth).next, depth, acc);
        }
      }
    }
  }

  lemma ValueBy(s: Text, i: nat, depth: nat)
    requires i <= |s|
    ensures match ValueAt(s, i, depth)
      case Bad(at, why) => ValueOf(s, i, depth) == Bad(at, why)
      case Got(t, j) => Valid(t) && ValueOf(s, i, depth) == Got(Meaning(t), j)
  {
    hide ValueAt, Meaning;
    if ValueAt(s, i, depth).Got? { ValueValid(s, i, depth); }
  }

  /** What comes of the rest, in terms of trees and of entries. */
  lemma EndBy(s: Text, i: nat, a: nat, key: seq<JsonSyntax.Piece>, b: nat, c: nat, v: Syntax, j: nat, depth: nat,
              acc: seq<Pair<Text, Json>>)
    requires i <= a <= b <= c < j <= |s| && ValidPieces(key) && Valid(v)
    requires MemberEnd(s, i, a, key, b, c, v, j, depth).Got? ==>
               ValidMembers(MemberEnd(s, i, a, key, b, c, v, j, depth).t)
    ensures var r := MemberEnd(s, i, a, key, b, c, v, j, depth);
      var after := AfterMember(s, Set(acc, SameText, Decode(key), Meaning(v)), j, depth);
      (r.Bad? ==> after == Bad(r.at, r.why)) && (r.Got? ==> after == Got(Entries(r.t, acc), r.next))
  {
    hide Meaning, Decode, Set, AllWs, Skip, Valid, ValidPieces, MembersAt;
    var k := Skip(s, j);
    if ByteAt(s, k, COMMA) && MembersAt(s, k + 1, depth).Got? { MembersValid(s, k + 1, depth); }
  }

  lemma QuotedIs(s: Text, i: nat)
    requires i <= |s|
    ensures match QuotedAt(s, i)
      case Bad(at, why) => QuotedOf(s, i) == Bad(at, why)
      case Got(ps, j) => ValidPieces(ps) && QuotedOf(s, i) == Got(Decode(ps), j)
  {
    if QuotedAt(s, i).Got? { StringValid(s, i + 1); }
  }

  lemma MemberBad(s: Text, i: nat, depth: nat, acc: seq<Pair<Text, Json>>)
    requires i <= |s| && MemberOf(s, i, depth).Bad?
    ensures var r := MemberOf(s, i, depth);
      Mapped(EntriesOf(s, i, depth, acc)) == Bad(r.at, r.why)
  {
    hide EntriesOf, MemberOf;
    EntriesBy(s, i, depth, acc);
  }

  lemma MemberGot(s: Text, i: nat, depth: nat, acc: seq<Pair<Text, Json>>, p: Pair<Text, Json>, j: nat)
    requires i <= |s| && MemberOf(s, i, depth) == Got(p, j) && j <= |s|
    ensures var k, now := Skip(s, j), Set(acc, SameText, p.key, p.val);
      var r := Mapped(EntriesOf(s, i, depth, acc));
      (ByteAt(s, k, COMMA) ==> r == Mapped(EntriesOf(s, k + 1, depth, now)))
      && (ByteAt(s, k, CLOSE_OBJECT) ==> r == Got(Map(now), k + 1))
      && (!ByteAt(s, k, COMMA) && !ByteAt(s, k, CLOSE_OBJECT) ==> r == Bad(k, NoObjectSeparator))
  {
    hide EntriesOf, MemberOf, Skip, Set;
    EntriesBy(s, i, depth, acc);
  }

  /* -------------------------------------------------------- the string methods' lemmas */

  lemma ScanForward(s: Text, i: nat)
    requires i <= |s|
    ensures ScanEnd(s, i) >= i
  {}

  lemma HexAtIs(s: Text, i: nat)
    ensures HexAt(s, i) <==> i + 4 <= |s| && IsHex(s[i..i + 4])
  {}

  lemma SteppedFits(s: Text, at: nat, i: nat, x: Text)
    requires Stepped(s, at, i, x)
    ensures at + |x| <= if ScanEnd(s, at) < |s| then ScanEnd(s, at) else |s|
  {
    ScanForward(s, i);
  }

  lemma SteppedOn(s: Text, start: nat, had: Text, at: nat, i: nat, x: Text)
    requires start <= |s| && at <= |s| && Stepped(s, at, i, x)
    requires TextOf(s, start) == Prepend(had, TextOf(s, at)) && ScanEnd(s, at) == ScanEnd(s, start)
    ensures i <= |s| && at < i && |x| <= i - at && TextOf(s, start) == Prepend(had + x, TextOf(s, i))
    ensures ScanEnd(s, i) == ScanEnd(s, start) && i <= ScanEnd(s, start)
  {
    hide TextOf, ScanEnd;
    Prepended(TextOf(s, start), had, TextOf(s, at), x, TextOf(s, i));
    ScanForward(s, i);
  }

  lemma PrependNone(s: Text, i: nat, x: Text)
    requires i <= |s| && x == []
    ensures TextOf(s, i) == Prepend(x, TextOf(s, i))
  {
    var r := TextOf(s, i);
    if r.Got? { assert x + r.t == r.t; }
  }

  lemma ControlFails(s: Text, i: nat, had: Text)
    requires i < |s| && s[i] < 0x20
    ensures Prepend(had, TextOf(s, i)) == Bad(i, ControlCharacter)
  {
    PieceFails(s, i);
  }

  lemma EscapeFails(s: Text, i: nat, had: Text)
    requires i + 1 < |s| && s[i] == BACKSLASH && s[i + 1] != SMALL_U && Unescaped(s[i + 1]) < 0
    ensures Prepend(had, TextOf(s, i)) == Bad(i + 1, UnknownEscape)
  {
    PieceFails(s, i);
  }

  lemma StillBad(s: Text, i: nat, had: Text)
    requires i <= |s|
    ensures TextOf(s, i).Bad? ==> Prepend(had, TextOf(s, i)) == TextOf(s, i)
  {}

  /** A backslash at the very end. */
  lemma CutShort(s: Text, i: nat)
    requires i + 1 == |s| && s[i] == BACKSLASH
    ensures TextOf(s, i) == TextOf(s, |s|)
  {
    PieceFails(s, i);
  }

  lemma AtEnd(s: Text, i: nat)
    requires i <= |s|
    ensures i == |s| ==> TextOf(s, i) == Bad(i, Unterminated)
  {}

  lemma GotAll(s: Text, i: nat, had: Text)
    requires i < |s| && s[i] == QUOTE
    ensures Prepend(had, TextOf(s, i)) == Got(had, i + 1)
  {
    assert had + [] == had;
  }

  /** The value of the first k hex digits. */
  ghost function Hexes(h: Text, k: nat): int
    requires k <= |h|
  {
    if k == 0 then 0 else Hexes(h, k - 1) * 16 + HexDigit(h[k - 1])
  }

  lemma HexesAll(h: Text)
    requires IsHex(h)
    ensures Hexes(h, 4) == HexValue(h)
  {
    assert Hexes(h, 1) == HexDigit(h[0]);
    assert Hexes(h, 2) == HexDigit(h[0]) * 16 + HexDigit(h[1]);
    assert Hexes(h, 3) == (HexDigit(h[0]) * 16 + HexDigit(h[1])) * 16 + HexDigit(h[2]);
  }

  /* -------------------------------------------------------- documents */

  ghost function DocumentOf(s: Text): Found<Json> {
    match DocumentAt(s)
    case Bad(at, why) => Bad(at, why)
    case Got(t, j) => DocumentSound(s); Got(Meaning(t), j)
  }

  /** vl_json_decode, untyped: accepted exactly when it is JSON nested no deeper than is allowed,
   *  with what that means; or else the first error. */
  method DecodeText(src: Text) returns (r: Option<Json>, failure: Option<Failure>)
    ensures match DocumentOf(src)
      case Got(v, _) => r == Some(v) && failure == None
      case Bad(at, why) => r == None && failure == Some(Failure(at, why))
    ensures r.Some? <==> exists t :: Spells(src, t)
    ensures forall t | Spells(src, t) :: r == Some(Meaning(t))
  {
    hide ValueOf, Skip, Meaning, Spells, ValueAt;
    var p := new Parser(src);
    var ok, v := p.JValue();
    if ok {
      p.JSkip();
      if p.i < |src| {
        p.JFail(TextAfterValue);
        ok := false;
      }
    }
    DocumentBy(src);
    DocumentSpells(src);
    r, failure := if ok then Some(v) else None, p.failure;
  }

  lemma DocumentBy(s: Text)
    ensures DocumentOf(s)
         == match ValueOf(s, 0, 0)
            case Bad(at, why) => Bad(at, why)
            case Got(v, j) => Ended(s, v, j)
  {
    hide ValueAt, Skip, Meaning;
  }

  ghost function Ended(s: Text, v: Json, j: nat): Found<Json>
    requires j <= |s|
  {
    if Skip(s, j) < |s| then Bad(Skip(s, j), TextAfterValue) else Got(v, |s|)
  }

  lemma DocumentSpells(s: Text)
    ensures DocumentOf(s).Got? <==> exists t :: Spells(s, t)
    ensures forall t | Spells(s, t) :: DocumentOf(s) == Got(Meaning(t), |s|)
  {
    hide Spells, DocumentAt, Meaning;
    if DocumentAt(s).Got? { DocumentSound(s); }
    forall t | Spells(s, t) ensures DocumentAt(s) == Got(t, |s|) { DocumentExact(s, t); }
  }
}
