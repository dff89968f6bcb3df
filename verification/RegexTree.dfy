/** The syntax trees of runtime/src/regex.c and the language each one denotes. */
module RegexTree {
  import Bytes

  type Byte = Bytes.Byte
  type Text = Bytes.Text

  /** Capture slots: entries 2*g and 2*g+1 bound group g, -1 meaning "not set". */
  type Caps = seq<int>

  datatype Node =
    | Empty(bol: bool, eol: bool)
    | Char(c: Byte)
    | Any
    | Class(members: set<Byte>, negated: bool)
    | Cat(left: Node, right: Node)
    | Alt(left: Node, right: Node)
    | Rep(body: Node, min: nat, max: int, greedy: bool)  // max < 0: unbounded
    | Group(body: Node, group: int)                      // group < 0: not captured

  function Range(lo: nat, hi: Byte): (r: set<Byte>)
    ensures forall b: Byte :: b in r <==> lo <= b <= hi
    decreases hi - lo
  {
    if lo > hi then {} else {lo} + Range(lo + 1, hi)
  }

  /** The lead and continuation byte shapes of a multi-byte character. */
  function Continuation(): set<Byte> { Range(0x80, 0xBF) }
  function Lead2(): set<Byte> { Range(0xC2, 0xDF) }
  function Lead3(): set<Byte> { Range(0xE0, 0xEF) }
  function Lead4(): set<Byte> { Range(0xF0, 0xF4) }

  /** The single bytes `.` and a negated class accept. */
  function DotAscii(): set<Byte> { Range(0x00, 0x7F) - {Bytes.NEWLINE} }
  function NegatedAscii(members: set<Byte>): set<Byte> { Range(0x00, 0x7F) - members }

  /** Writing one capture slot; an index outside the vector changes nothing
   *  (compiled programs never hold one, see RegexCompiler.CompiledIsWellFormed). */
  function Put(c: Caps, x: int, v: int): (d: Caps)
    ensures |d| == |c|
  {
    if 0 <= x < |c| then c[x := v] else c
  }

  /** w[i..j] is a lead byte followed by n - 1 continuation bytes. */
  ghost predicate Multibyte(lead: set<Byte>, n: nat, w: Text, i: nat, j: nat) {
    j == i + n <= |w| && 1 <= n && w[i] in lead && forall x :: i < x < j ==> w[x] in Continuation()
  }

  /** w[i..j] is one character: a byte of `ascii`, or one of the three
   *  multi-byte shapes. */
  ghost predicate OneChar(ascii: set<Byte>, w: Text, i: nat, j: nat) {
    || Multibyte(ascii, 1, w, i, j)
    || Multibyte(Lead2(), 2, w, i, j)
    || Multibyte(Lead3(), 3, w, i, j)
    || Multibyte(Lead4(), 4, w, i, j)
  }

  /** One way of matching: the text between i and j, turning capture vector c into d. */
  datatype Span = Span(i: nat, c: Caps, j: nat, d: Caps)
  type Rel = iset<Span>

  ghost function Id(): Rel { iset s: Span | s.i == s.j && s.c == s.d }

  ghost predicate Joins(a: Rel, b: Rel, s: Span, m: nat, e: Caps) {
    Span(s.i, s.c, m, e) in a && Span(m, e, s.j, s.d) in b
  }

  ghost predicate JoinsSomewhere(a: Rel, b: Rel, s: Span) {
    exists m: nat, e: Caps :: Joins(a, b, s, m, e)
  }

  ghost function Then(a: Rel, b: Rel): Rel { iset s: Span | JoinsSomewhere(a, b, s) }

  ghost function Power(a: Rel, k: nat): Rel {
    if k == 0 then Id() else Then(a, Power(a, k - 1))
  }

  /** Between lo and hi repetitions (hi < 0: any number from lo on). */
  ghost predicate RepeatsBetween(a: Rel, lo: nat, hi: int, s: Span) {
    exists k: nat :: lo <= k && (hi < 0 || k <= lo || k <= hi) && s in Power(a, k)
  }

  ghost function Repeated(a: Rel, lo: nat, hi: int): Rel { iset s: Span | RepeatsBetween(a, lo, hi, s) }

  /** An empty match that records its position in slot x. */
  ghost function Mark(x: int): Rel { iset s: Span | s.i == s.j && s.d == Put(s.c, x, s.i) }

  ghost function Anchored(bol: bool, eol: bool, w: Text): Rel {
    iset s: Span | s.i == s.j && s.c == s.d && (bol ==> s.i == 0) && (eol ==> s.i == |w|)
  }

  ghost function ByteIn(members: set<Byte>, w: Text): Rel {
    iset s: Span | s.j == s.i + 1 <= |w| && s.c == s.d && w[s.i] in members
  }

  ghost function CharIn(ascii: set<Byte>, w: Text): Rel {
    iset s: Span | s.c == s.d && OneChar(ascii, w, s.i, s.j)
  }

  /** What a tree matches in w, with the captures each match records. */
  ghost function Denote(n: Node, w: Text): Rel {
    match n
    case Empty(bol, eol) => Anchored(bol, eol, w)
    case Char(b) => ByteIn({b}, w)
    case Any => CharIn(DotAscii(), w)
    case Class(s, negated) => if negated then CharIn(NegatedAscii(s), w) else ByteIn(s, w)
    case Cat(l, r) => Then(Denote(l, w), Denote(r, w))
    case Alt(l, r) => Denote(l, w) + Denote(r, w)
    case Rep(b, lo, hi, _) => Repeated(Denote(b, w), lo, hi)
    case Group(b, g) =>
      if g < 0 then Denote(b, w) else Then(Mark(2 * g), Then(Denote(b, w), Mark(2 * g + 1)))
  }

  /** Every capturing group's number lies in 1..groups: slot pair 0 is the whole match. */
  ghost predicate GroupsWithin(n: Node, groups: nat) {
    match n
    case Cat(l, r) => GroupsWithin(l, groups) && GroupsWithin(r, groups)
    case Alt(l, r) => GroupsWithin(l, groups) && GroupsWithin(r, groups)
    case Rep(b, _, _, _) => GroupsWithin(b, groups)
    case Group(b, g) => g != 0 && g <= groups && GroupsWithin(b, groups)
    case _ => true
  }
}
