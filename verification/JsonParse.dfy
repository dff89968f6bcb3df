/** Arrays, objects and whole documents: the parser finds a tree exactly where one is written. */
module JsonParse {
  import opened Options
  import opened Bytes
  import opened JsonSyntax
  import opened JsonGrammar

  /* -------------------------------------------------------- what the parser finds */

  /** jlit */
  function LiteralAt(s: Text, i: nat, t: Syntax): Found<Syntax> {
    if Occurs(s, i, Write(t)) then Got(t, i + |Write(t)|) else Bad(i, InvalidValue)
  }

  function NumberAt(s: Text, i: nat): (r: Found<Syntax>)
    requires i <= |s|
    ensures r.Got? ==> i < r.next <= |s|
  {
    match NumAt(s, i)
    case Bad(at, why) => Bad(at, why)
    case Got(n, j) =>
      NumSound(s, i);
      if NumValue(n).None? then Bad(i, OutOfRange) else Got(Number(n), j)
  }

  /** jvalue: space, and then what the first byte calls for. */
  function ValueAt(s: Text, i: nat, depth: nat): (r: Found<Syntax>)
    requires i <= |s|
    ensures r.Got? ==> i < r.next <= |s|
    decreases |s| - i, 2
  {
    var j := Skip(s, i);
    if j >= |s| then Bad(j, EndOfInput)
    else if depth >= MAX_DEPTH then Bad(j, TooDeep)
    else if s[j] == OPEN_OBJECT then ObjectAt(s, j, depth + 1)
    else if s[j] == OPEN_ARRAY then ArrayAt(s, j, depth + 1)
    else if s[j] == QUOTE then
      match QuotedAt(s, j)
      case Bad(at, why) => Bad(at, why)
      case Got(ps, k) => Got(String(ps), k)
    else if s[j] == 't' as int then LiteralAt(s, j, True)
    else if s[j] == 'f' as int then LiteralAt(s, j, False)
    else if s[j] == 'n' as int then LiteralAt(s, j, Null)
    else NumberAt(s, j)
  }

  function ArrayAt(s: Text, i: nat, depth: nat): (r: Found<Syntax>)
    requires i < |s|
    ensures r.Got? ==> i < r.next <= |s|
    decreases |s| - i, 1
  {
    var j := Skip(s, i + 1);
    if ByteAt(s, j, CLOSE_ARRAY) then Got(EmptyArray(s[i + 1..j]), j + 1)
    else
      match ItemsAt(s, i + 1, depth)
      case Bad(at, why) => Bad(at, why)
      case Got(items, k) => Got(Array(items), k)
  }

  function ItemsAt(s: Text, i: nat, depth: nat): (r: Found<Items>)
    requires i <= |s|
    ensures r.Got? ==> i < r.next <= |s|
    decreases |s| - i, 3
  {
    match ValueAt(s, i, depth)
    case Bad(at, why) => Bad(at, why)
    case Got(v, j) =>
      var k := Skip(s, j);
      if ByteAt(s, k, COMMA) then
        match ItemsAt(s, k + 1, depth)
        case Bad(at, why) => Bad(at, why)
        case Got(rest, l) => Got(Item(s[i..Skip(s, i)], v, s[j..k], rest), l)
      else if ByteAt(s, k, CLOSE_ARRAY) then Got(LastItem(s[i..Skip(s, i)], v, s[j..k]), k + 1)
      else Bad(k, NoArraySeparator)
  }

  function ObjectAt(s: Text, i: nat, depth: nat): (r: Found<Syntax>)
    requires i < |s|
    ensures r.Got? ==> i < r.next <= |s|
    decreases |s| - i, 1
  {
    var j := Skip(s, i + 1);
    if ByteAt(s, j, CLOSE_OBJECT) then Got(EmptyObject(s[i + 1..j]), j + 1)
    else
      match MembersAt(s, i + 1, depth)
      case Bad(at, why) => Bad(at, why)
      case Got(members, k) => Got(Object(members), k)
  }

  function MembersAt(s: Text, i: nat, depth: nat): (r: Found<Members>)
    requires i <= |s|
    ensures r.Got? ==> i < r.next <= |s|
    decreases |s| - i, 3
  {
    var a := Skip(s, i);
    match QuotedAt(s, a)
    case Bad(at, why) => Bad(at, why)
    case Got(key, b) =>
      var c := Skip(s, b);
      if !ByteAt(s, c, COLON) then Bad(c, NoColon)
      else
        match ValueAt(s, c + 1, depth)
        case Bad(at, why) => Bad(at, why)
        case Got(v, j) => MemberEnd(s, i, a, key, b, c, v, j, depth)
  }

  /** What comes after a member's value. */
  function MemberEnd(s: Text, i: nat, a: nat, key: seq<JsonSyntax.Piece>, b: nat, c: nat, v: Syntax, j: nat,
                     depth: nat): (r: Found<Members>)
    requires i <= a <= b <= c < j <= |s|
    ensures r.Got? ==> i < r.next <= |s|
    decreases |s| - i, 2
  {
    var k := Skip(s, j);
    var gap := s[c + 1..Skip(s, c + 1)];
    if ByteAt(s, k, COMMA) then
      match MembersAt(s, k + 1, depth)
      case Bad(at, why) => Bad(at, why)
      case Got(more, l) => Got(Member(s[i..a], key, s[b..c], gap, v, s[j..k], more), l)
    else if ByteAt(s, k, CLOSE_OBJECT) then Got(LastMember(s[i..a], key, s[b..c], gap, v, s[j..k]), k + 1)
    else Bad(k, NoObjectSeparator)
  }

  /** vl_json_decode, untyped: one value, and space around it. */
  function DocumentAt(s: Text): Found<Syntax> {
    match ValueAt(s, 0, 0)
    case Bad(at, why) => Bad(at, why)
    case Got(t, i) => if Skip(s, i) < |s| then Bad(Skip(s, i), TextAfterValue) else Got(t, |s|)
  }

  /* -------------------------------------------------------- what it finds is written there */

  /** From i to j stand space and then t, not nested too deeply. */
  ghost predicate Stands(s: Text, i: nat, t: Syntax, j: nat, depth: nat) {
    i <= |s| && Valid(t) && Occurs(s, Skip(s, i), Write(t)) && j == Skip(s, i) + |Write(t)|
    && depth + Depth(t) <= MAX_DEPTH
  }

  ghost predicate ItemsStand(s: Text, i: nat, items: Items, j: nat, depth: nat) {
    ValidItems(items) && Occurs(s, i, WriteItems(items)) && j == i + |WriteItems(items)|
    && depth + ItemsDepth(items) <= MAX_DEPTH
  }

  ghost predicate MembersStand(s: Text, i: nat, members: Members, j: nat, depth: nat) {
    ValidMembers(members) && Occurs(s, i, WriteMembers(members)) && j == i + |WriteMembers(members)|
    && depth + MembersDepth(members) <= MAX_DEPTH
  }

  lemma NumberSound(s: Text, i: nat)
    requires i <= |s| && NumberAt(s, i).Got?
    ensures var r := NumberAt(s, i);
      Valid(r.t) && Depth(r.t) == 1 && Occurs(s, i, Write(r.t)) && r.next == i + |Write(r.t)|
  {
    NumSound(s, i);
  }

  lemma StringValue(s: Text, i: nat)
    requires i <= |s| && QuotedAt(s, i).Got?
    ensures var t := String(QuotedAt(s, i).t);
      Valid(t) && Occurs(s, i, Write(t)) && QuotedAt(s, i).next == i + |Write(t)|
  {
    QuotedSound(s, i);
  }

  lemma {:induction false} ValueSound(s: Text, i: nat, depth: nat)
    requires i <= |s| && ValueAt(s, i, depth).Got?
    ensures Stands(s, i, ValueAt(s, i, depth).t, ValueAt(s, i, depth).next, depth)
    decreases |s| - i, 2
  {
    hide Occurs, NumberAt, QuotedAt, ArrayAt, ObjectAt, WriteItems, WriteMembers, WriteString, WriteNum;
    var j := Skip(s, i);
    if s[j] == OPEN_OBJECT {
      ObjectSound(s, j, depth + 1);
    } else if s[j] == OPEN_ARRAY {
      ArraySound(s, j, depth + 1);
    } else if s[j] == QUOTE {
      StringValue(s, j);
    } else if s[j] == 't' as int || s[j] == 'f' as int || s[j] == 'n' as int {
    } else {
      NumberSound(s, j);
    }
  }

  lemma {:induction false} ArraySound(s: Text, i: nat, depth: nat)
    requires i < |s| && s[i] == OPEN_ARRAY && ArrayAt(s, i, depth).Got? && 1 <= depth <= MAX_DEPTH
    ensures var r := ArrayAt(s, i, depth);
      Valid(r.t) && Occurs(s, i, Write(r.t)) && r.next == i + |Write(r.t)| && depth - 1 + Depth(r.t) <= MAX_DEPTH
    decreases |s| - i, 1
  {
    var j := Skip(s, i + 1);
    if ByteAt(s, j, CLOSE_ARRAY) {
      EmptyOccurs(s, i, OPEN_ARRAY, j, CLOSE_ARRAY);
    } else {
      ItemsSound(s, i + 1, depth);
      OpenOccurs(s, i, OPEN_ARRAY, WriteItems(ItemsAt(s, i + 1, depth).t));
    }
  }

  lemma {:induction false} ObjectSound(s: Text, i: nat, depth: nat)
    requires i < |s| && s[i] == OPEN_OBJECT && ObjectAt(s, i, depth).Got? && 1 <= depth <= MAX_DEPTH
    ensures var r := ObjectAt(s, i, depth);
      Valid(r.t) && Occurs(s, i, Write(r.t)) && r.next == i + |Write(r.t)| && depth - 1 + Depth(r.t) <= MAX_DEPTH
    decreases |s| - i, 1
  {
    var j := Skip(s, i + 1);
    if ByteAt(s, j, CLOSE_OBJECT) {
      EmptyOccurs(s, i, OPEN_OBJECT, j, CLOSE_OBJECT);
    } else {
      MembersSound(s, i + 1, depth);
      OpenOccurs(s, i, OPEN_OBJECT, WriteMembers(MembersAt(s, i + 1, depth).t));
    }
  }

  lemma OpenOccurs(s: Text, i: nat, c: Byte, w: Text)
    requires ByteAt(s, i, c) && Occurs(s, i + 1, w)
    ensures Occurs(s, i, [c] + w) && |[c] + w| == 1 + |w|
  {
    OccursOne(s, i, c);
    OccursBoth(s, i, [c], w);
  }

  lemma EmptyOccurs(s: Text, i: nat, c: Byte, j: nat, d: Byte)
    requires ByteAt(s, i, c) && i + 1 <= j && ByteAt(s, j, d)
    ensures Occurs(s, i, [c] + (s[i + 1..j] + [d])) && |[c] + (s[i + 1..j] + [d])| == j + 1 - i
  {
    OccursSlice(s, i + 1, j);
    OccursOne(s, j, d);
    OccursBoth(s, i + 1, s[i + 1..j], [d]);
    OpenOccurs(s, i, c, s[i + 1..j] + [d]);
  }

  /** Space up to the next token is written before it. */
  lemma SpaceOccurs(s: Text, i: nat, w: Text)
    requires i <= |s| && Occurs(s, Skip(s, i), w)
    ensures Occurs(s, i, s[i..Skip(s, i)] + w) && AllWs(s[i..Skip(s, i)])
    ensures |s[i..Skip(s, i)]| == Skip(s, i) - i
  {
    OccursSlice(s, i, Skip(s, i));
    OccursBoth(s, i, s[i..Skip(s, i)], w);
  }

  lemma ThenOccurs(s: Text, i: nat, a: Text, j: nat, w: Text)
    requires Occurs(s, i, a) && j == i + |a| && Occurs(s, j, w)
    ensures Occurs(s, i, a + w)
  {
    OccursBoth(s, i, a, w);
  }

  lemma {:induction false} ItemsSound(s: Text, i: nat, depth: nat)
    requires i <= |s| && ItemsAt(s, i, depth).Got?
    ensures ItemsStand(s, i, ItemsAt(s, i, depth).t, ItemsAt(s, i, depth).next, depth)
    decreases |s| - i, 3
  {
    hide Occurs, ValueAt, AllWs, Skip, ByteAt, Write;
    ValueSound(s, i, depth);
    var v, j := ValueAt(s, i, depth).t, ValueAt(s, i, depth).next;
    var k := Skip(s, j);
    if ByteAt(s, k, COMMA) {
      ItemsSound(s, k + 1, depth);
      var rest := ItemsAt(s, k + 1, depth).t;
      OpenOccurs(s, k, COMMA, WriteItems(rest));
      ItemOccurs(s, i, Skip(s, i), v, j, k, [COMMA] + WriteItems(rest));
    } else {
      OccursOne(s, k, CLOSE_ARRAY);
      ItemOccurs(s, i, Skip(s, i), v, j, k, [CLOSE_ARRAY]);
    }
  }

  lemma ItemOccurs(s: Text, i: nat, a: nat, v: Syntax, j: nat, k: nat, tail: Text)
    requires i <= |s| && a == Skip(s, i) && Occurs(s, a, Write(v)) && j == a + |Write(v)|
    requires j <= |s| && k == Skip(s, j) && Occurs(s, k, tail)
    ensures var w := s[i..a] + (Write(v) + (s[j..k] + tail));
      Occurs(s, i, w) && i + |w| == k + |tail|
    ensures AllWs(s[i..a]) && AllWs(s[j..k])
  {
    hide Occurs, AllWs, Skip, Write;
    SpaceOccurs(s, j, tail);
    ThenOccurs(s, a, Write(v), j, s[j..k] + tail);
    SpaceOccurs(s, i, Write(v) + (s[j..k] + tail));
  }

  lemma {:induction false} MembersSound(s: Text, i: nat, depth: nat)
    requires i <= |s| && MembersAt(s, i, depth).Got?
    ensures MembersStand(s, i, MembersAt(s, i, depth).t, MembersAt(s, i, depth).next, depth)
    decreases |s| - i, 3
  {
    hide *;
    var a, key, b, c, v, j, k := MembersParts(s, i, depth);
    MemberToIs(s, i, a, key, b, c, v, j, k, depth);
    QuotedSound(s, a);
    ValueSound(s, c + 1, depth);
    StandsIs(s, c + 1, v, j, depth);
    if s[k] == COMMA {
      MembersSound(s, k + 1, depth);
      MemberIs(s, i, a, key, b, c, v, j, k, depth);
      var more, l := MembersAt(s, k + 1, depth).t, MembersAt(s, k + 1, depth).next;
      MembersStandIs(s, k + 1, more, l, depth);
      SeparatorAt(s, k, COMMA);
      OpenOccurs(s, k, COMMA, WriteMembers(more));
      MemberOccurs(s, i, a, key, b, c, Skip(s, c + 1), v, j, k, [COMMA] + WriteMembers(more));
      MemberStands(s, i, a, key, b, c, v, j, k, more, l, depth);
    } else {
      LastMemberIs(s, i, a, key, b, c, v, j, k, depth);
      SeparatorAt(s, k, CLOSE_OBJECT);
      OccursOne(s, k, CLOSE_OBJECT);
      MemberOccurs(s, i, a, key, b, c, Skip(s, c + 1), v, j, k, [CLOSE_OBJECT]);
      LastMemberStands(s, i, a, key, b, c, v, j, k, depth);
    }
  }

  /** What the parser found up to what ends a member. */
  lemma MembersParts(s: Text, i: nat, depth: nat)
    returns (a: nat, key: seq<JsonSyntax.Piece>, b: nat, c: nat, v: Syntax, j: nat, k: nat)
    requires i <= |s| && MembersAt(s, i, depth).Got?
    ensures MemberTo(s, i, a, key, b, c, v, j, k, depth)
    ensures if s[k] == COMMA then MembersAt(s, k + 1, depth).Got? else s[k] == CLOSE_OBJECT
  {
    hide Skip, QuotedAt, ValueAt, AllWs;
    a := Skip(s, i);
    key, b := QuotedAt(s, a).t, QuotedAt(s, a).next;
    c := Skip(s, b);
    v, j := ValueAt(s, c + 1, depth).t, ValueAt(s, c + 1, depth).next;
    k := Skip(s, j);
  }

  lemma MemberToIs(s: Text, i: nat, a: nat, key: seq<JsonSyntax.Piece>, b: nat, c: nat, v: Syntax, j: nat, k: nat,
                   depth: nat)
    requires MemberTo(s, i, a, key, b, c, v, j, k, depth)
    ensures i <= a < b <= c < |s| && Skip(s, i) == a && QuotedAt(s, a) == Got(key, b) && Skip(s, b) == c
    ensures ByteAt(s, c, COLON) && ValueAt(s, c + 1, depth) == Got(v, j) && c + 1 < j <= k < |s| && Skip(s, j) == k
  {
    hide Skip, QuotedAt, ValueAt, ByteAt, AllWs;
  }

  lemma StandsIs(s: Text, i: nat, t: Syntax, j: nat, depth: nat)
    requires Stands(s, i, t, j, depth)
    ensures i <= |s| && Valid(t) && Occurs(s, Skip(s, i), Write(t)) && j == Skip(s, i) + |Write(t)|
    ensures depth + Depth(t) <= MAX_DEPTH
  {}

  lemma MembersStandIs(s: Text, i: nat, members: Members, j: nat, depth: nat)
    requires MembersStand(s, i, members, j, depth)
    ensures ValidMembers(members) && Occurs(s, i, WriteMembers(members)) && j == i + |WriteMembers(members)|
    ensures depth + MembersDepth(members) <= MAX_DEPTH
  {}

  lemma SeparatorAt(s: Text, k: nat, c: Byte)
    requires k < |s| && s[k] == c
    ensures ByteAt(s, k, c)
  {}

  lemma LastMemberStands(s: Text, i: nat, a: nat, key: seq<JsonSyntax.Piece>, b: nat, c: nat, v: Syntax, j: nat, k: nat,
                         depth: nat)
    requires i <= a <= b <= c < |s| && c + 1 <= Skip(s, c + 1) && j <= k <= |s| && Valid(v) && ValidPieces(key)
    requires AllWs(s[i..a]) && AllWs(s[b..c]) && AllWs(s[c + 1..Skip(s, c + 1)]) && AllWs(s[j..k])
    requires depth + Depth(v) <= MAX_DEPTH
    requires var w := s[i..a] + (WriteString(key) + (s[b..c]
                      + ([COLON] + (s[c + 1..Skip(s, c + 1)] + (Write(v) + (s[j..k] + [CLOSE_OBJECT]))))));
      Occurs(s, i, w) && i + |w| == k + 1
    ensures var m := LastMember(s[i..a], key, s[b..c], s[c + 1..Skip(s, c + 1)], v, s[j..k]);
      MembersStand(s, i, m, k + 1, depth)
  {
    hide Skip, Valid, ValidPieces, AllWs, Write, WriteString, Occurs, Depth;
  }

  lemma MemberStands(s: Text, i: nat, a: nat, key: seq<JsonSyntax.Piece>, b: nat, c: nat, v: Syntax, j: nat, k: nat,
                     more: Members, l: nat, depth: nat)
    requires i <= a <= b <= c < |s| && c + 1 <= Skip(s, c + 1) && j <= k <= |s| && Valid(v) && ValidPieces(key)
    requires AllWs(s[i..a]) && AllWs(s[b..c]) && AllWs(s[c + 1..Skip(s, c + 1)]) && AllWs(s[j..k])
    requires depth + Depth(v) <= MAX_DEPTH && MembersStand(s, k + 1, more, l, depth)
    requires var tail := [COMMA] + WriteMembers(more);
      var w := s[i..a] + (WriteString(key) + (s[b..c]
               + ([COLON] + (s[c + 1..Skip(s, c + 1)] + (Write(v) + (s[j..k] + tail))))));
      Occurs(s, i, w) && i + |w| == k + |tail|
    ensures var m := Member(s[i..a], key, s[b..c], s[c + 1..Skip(s, c + 1)], v, s[j..k], more);
      MembersStand(s, i, m, l, depth)
  {
    hide Skip, Valid, ValidPieces, AllWs, Write, WriteString, Occurs, Depth;
  }

  lemma MemberOccurs(s: Text, i: nat, a: nat, key: seq<JsonSyntax.Piece>, b: nat, c: nat, d: nat, v: Syntax, j: nat,
                     k: nat, tail: Text)
    requires i <= |s| && a == Skip(s, i) && Occurs(s, a, WriteString(key)) && b == a + |WriteString(key)|
    requires b <= |s| && c == Skip(s, b) && ByteAt(s, c, COLON) && d == Skip(s, c + 1)
    requires Occurs(s, d, Write(v)) && j == d + |Write(v)| && j <= |s| && k == Skip(s, j) && Occurs(s, k, tail)
    ensures var w := s[i..a] + (WriteString(key) + (s[b..c]
                     + ([COLON] + (s[c + 1..d] + (Write(v) + (s[j..k] + tail))))));
      Occurs(s, i, w) && i + |w| == k + |tail|
    ensures AllWs(s[i..a]) && AllWs(s[b..c]) && AllWs(s[c + 1..d]) && AllWs(s[j..k])
  {
    hide Occurs, AllWs, Skip, WriteString, Write;
    SpaceOccurs(s, j, tail);
    var w1 := s[j..k] + tail;
    ThenOccurs(s, d, Write(v), j, w1);
    var w2 := Write(v) + w1;
    SpaceOccurs(s, c + 1, w2);
    var w3 := s[c + 1..d] + w2;
    OpenOccurs(s, c, COLON, w3);
    SpaceOccurs(s, b, [COLON] + w3);
    var w4 := s[b..c] + ([COLON] + w3);
    ThenOccurs(s, a, WriteString(key), b, w4);
    SpaceOccurs(s, i, WriteString(key) + w4);
  }

  /* -------------------------------------------------------- what is written it finds */

  /** What may come after a value: for a number, not more of a number. */
  ghost predicate Ends(t: Syntax, s: Text, i: nat) { t.Number? ==> NumEnds(s, i) }

  lemma SkipTo(s: Text, i: nat, ws: Text)
    requires Occurs(s, i, ws) && AllWs(ws) && (i + |ws| < |s| ==> !IsWs(s[i + |ws|]))
    ensures Skip(s, i) == i + |ws|
    decreases |ws|
  {
    if ws != [] {
      assert s[i] == s[i..i + |ws|][0];
      assert s[i + 1..i + 1 + |ws[1..]|] == s[i..i + |ws|][1..];
      SkipTo(s, i + 1, ws[1..]);
    }
  }

  /** Space, and then something that does not start with space. */
  lemma SpaceThen(s: Text, i: nat, ws: Text, w: Text)
    requires Occurs(s, i, ws + w) && AllWs(ws) && w != [] && !IsWs(w[0])
    ensures i <= |s| && Skip(s, i) == i + |ws| && Occurs(s, i + |ws|, w) && s[i..i + |ws|] == ws
    ensures i + |ws| < |s| && s[i + |ws|] == w[0]
  {
    OccursBoth(s, i, ws, w);
    assert s[i + |ws|] == s[i + |ws|..i + |ws| + |w|][0];
    SkipTo(s, i, ws);
  }

  /** A value's first byte says what it is. */
  predicate FirstByte(t: Syntax, c: Byte) {
    match t
    case Null => c == 'n' as int
    case True => c == 't' as int
    case False => c == 'f' as int
    case Number(_) => IsDigit(c) || c == MINUS
    case String(_) => c == QUOTE
    case EmptyArray(_) => c == OPEN_ARRAY
    case Array(_) => c == OPEN_ARRAY
    case EmptyObject(_) => c == OPEN_OBJECT
    case Object(_) => c == OPEN_OBJECT
  }

  lemma FirstOf(t: Syntax)
    requires Valid(t)
    ensures Write(t) != [] && FirstByte(t, Write(t)[0])
  {}

  lemma NumberComplete(s: Text, i: nat, n: Num)
    requires ValidNum(n) && NumValue(n).Some? && Occurs(s, i, WriteNum(n)) && NumEnds(s, i + |WriteNum(n)|)
    ensures NumberAt(s, i) == Got(Number(n), i + |WriteNum(n)|)
  {
    NumComplete(s, i, n);
  }

  /** Space and a value, from i. */
  lemma {:induction false} ValueComplete(s: Text, i: nat, ws: Text, t: Syntax, depth: nat)
    requires AllWs(ws) && Valid(t) && Occurs(s, i, ws + Write(t)) && depth + Depth(t) <= MAX_DEPTH
    requires Ends(t, s, i + |ws| + |Write(t)|)
    ensures i <= |s| && ValueAt(s, i, depth) == Got(t, i + |ws| + |Write(t)|) && Skip(s, i) == i + |ws|
    ensures s[i..Skip(s, i)] == ws
    decreases t, 1
  {
    hide Occurs, AllWs, Skip, NumberAt, QuotedAt, ArrayAt, ObjectAt, NumEnds;
    hide WriteItems, WriteMembers, WriteString, WriteNum, Write, Valid;
    FirstOf(t);
    SpaceThen(s, i, ws, Write(t));
    SkipAgain(s, i);
    TokenComplete(s, i + |ws|, t, depth);
    SameFrom(s, i, i + |ws|, depth);
  }

  lemma SkipAgain(s: Text, i: nat)
    requires i <= |s|
    ensures Skip(s, Skip(s, i)) == Skip(s, i)
  {}

  lemma SameFrom(s: Text, i: nat, j: nat, depth: nat)
    requires i <= |s| && j <= |s| && Skip(s, i) == Skip(s, j)
    ensures ValueAt(s, i, depth) == ValueAt(s, j, depth)
  {}

  lemma Dispatch(s: Text, j: nat, t: Syntax, depth: nat)
    requires j < |s| && Skip(s, j) == j && depth < MAX_DEPTH && FirstByte(t, s[j])
    ensures t.Null? || t.True? || t.False? ==> ValueAt(s, j, depth) == LiteralAt(s, j, t)
    ensures t.Number? ==> ValueAt(s, j, depth) == NumberAt(s, j)
    ensures t.String? && QuotedAt(s, j).Got? ==>
              ValueAt(s, j, depth) == Got(String(QuotedAt(s, j).t), QuotedAt(s, j).next)
    ensures t.EmptyArray? || t.Array? ==> ValueAt(s, j, depth) == ArrayAt(s, j, depth + 1)
    ensures t.EmptyObject? || t.Object? ==> ValueAt(s, j, depth) == ObjectAt(s, j, depth + 1)
  {
    hide LiteralAt, NumberAt, QuotedAt, ArrayAt, ObjectAt;
  }

  /** By the first byte. */
  lemma {:induction false} TokenComplete(s: Text, j: nat, t: Syntax, depth: nat)
    requires Valid(t) && Occurs(s, j, Write(t)) && depth + Depth(t) <= MAX_DEPTH && Ends(t, s, j + |Write(t)|)
    requires j < |s| && Skip(s, j) == j && FirstByte(t, s[j])
    ensures ValueAt(s, j, depth) == Got(t, j + |Write(t)|)
    decreases t, 0
  {
    hide *;
    TreeParts(t);
    Dispatch(s, j, t, depth);
    match t
    case Number(n) => EndsIs(t, s, j + |Write(t)|);
      NumberComplete(s, j, n);
    case String(ps) => QuotedComplete(s, j, ps);
    case EmptyArray(ws) => EmptyComplete(s, j, OPEN_ARRAY, ws, CLOSE_ARRAY);
      EmptyArrayAt(s, j, ws, depth + 1);
    case EmptyObject(ws) => EmptyComplete(s, j, OPEN_OBJECT, ws, CLOSE_OBJECT);
      EmptyObjectAt(s, j, ws, depth + 1);
    case Array(items) =>
      OpenSplit(s, j, OPEN_ARRAY, WriteItems(items));
      ItemsComplete(s, j + 1, items, depth + 1);
      ArrayIs(s, j, depth + 1);
    case Object(members) =>
      OpenSplit(s, j, OPEN_OBJECT, WriteMembers(members));
      MembersComplete(s, j + 1, members, depth + 1);
      ObjectIs(s, j, depth + 1);
    case _ => LiteralThere(s, j, t);
  }

  lemma EndsIs(t: Syntax, s: Text, i: nat)
    requires Ends(t, s, i)
    ensures t.Number? ==> NumEnds(s, i)
  {}

  lemma LiteralThere(s: Text, j: nat, t: Syntax)
    requires Occurs(s, j, Write(t))
    ensures LiteralAt(s, j, t) == Got(t, j + |Write(t)|)
  {}

  /** A tree's parts: how each is written, valid and how deep. */
  lemma TreeParts(t: Syntax)
    requires Valid(t)
    ensures Depth(t) >= 1 && !IsWs(CLOSE_ARRAY) && !IsWs(CLOSE_OBJECT)
    ensures match t
      case Number(n) => ValidNum(n) && NumValue(n).Some? && Write(t) == WriteNum(n)
      case String(ps) => ValidPieces(ps) && Write(t) == WriteString(ps)
      case EmptyArray(ws) => AllWs(ws) && Write(t) == [OPEN_ARRAY] + (ws + [CLOSE_ARRAY])
      case EmptyObject(ws) => AllWs(ws) && Write(t) == [OPEN_OBJECT] + (ws + [CLOSE_OBJECT])
      case Array(items) =>
        ValidItems(items) && Write(t) == [OPEN_ARRAY] + WriteItems(items) && Depth(t) == 1 + ItemsDepth(items)
      case Object(members) =>
        ValidMembers(members) && Write(t) == [OPEN_OBJECT] + WriteMembers(members)
        && Depth(t) == 1 + MembersDepth(members)
      case _ => true
  {
    hide ValidNum, NumValue, WriteNum, WriteString, WriteItems, WriteMembers, ValidItems, ValidMembers;
  }

  lemma OpenSplit(s: Text, i: nat, c: Byte, w: Text)
    requires Occurs(s, i, [c] + w)
    ensures ByteAt(s, i, c) && Occurs(s, i + 1, w) && i + 1 <= |s| && |[c] + w| == 1 + |w|
  {
    OccursBoth(s, i, [c], w);
    OccursOne(s, i, c);
  }

  lemma EmptyComplete(s: Text, j: nat, c: Byte, ws: Text, d: Byte)
    requires Occurs(s, j, [c] + (ws + [d])) && AllWs(ws) && !IsWs(d)
    ensures j + 1 <= |s| && Skip(s, j + 1) == j + 1 + |ws| && s[j + 1..j + 1 + |ws|] == ws
    ensures ByteAt(s, j + 1 + |ws|, d) && |[c] + (ws + [d])| == |ws| + 2
  {
    hide Occurs;
    OpenSplit(s, j, c, ws + [d]);
    SpaceThen(s, j + 1, ws, [d]);
  }

  lemma EmptyArrayAt(s: Text, j: nat, ws: Text, depth: nat)
    requires j + 1 <= |s| && Skip(s, j + 1) == j + 1 + |ws| && s[j + 1..j + 1 + |ws|] == ws
    requires ByteAt(s, j + 1 + |ws|, CLOSE_ARRAY)
    ensures ArrayAt(s, j, depth) == Got(EmptyArray(ws), j + |ws| + 2)
  {}

  lemma EmptyObjectAt(s: Text, j: nat, ws: Text, depth: nat)
    requires j + 1 <= |s| && Skip(s, j + 1) == j + 1 + |ws| && s[j + 1..j + 1 + |ws|] == ws
    requires ByteAt(s, j + 1 + |ws|, CLOSE_OBJECT)
    ensures ObjectAt(s, j, depth) == Got(EmptyObject(ws), j + |ws| + 2)
  {}

  lemma ArrayIs(s: Text, j: nat, depth: nat)
    requires j + 1 <= |s| && !ByteAt(s, Skip(s, j + 1), CLOSE_ARRAY) && ItemsAt(s, j + 1, depth).Got?
    ensures ArrayAt(s, j, depth) == Got(Array(ItemsAt(s, j + 1, depth).t), ItemsAt(s, j + 1, depth).next)
  {}

  lemma ObjectIs(s: Text, j: nat, depth: nat)
    requires j + 1 <= |s| && !ByteAt(s, Skip(s, j + 1), CLOSE_OBJECT) && MembersAt(s, j + 1, depth).Got?
    ensures ObjectAt(s, j, depth) == Got(Object(MembersAt(s, j + 1, depth).t), MembersAt(s, j + 1, depth).next)
  {}

  /** What follows a value inside an array or an object. */
  predicate Separates(tail: Text) {
    tail != [] && (tail[0] == COMMA || tail[0] == CLOSE_ARRAY || tail[0] == CLOSE_OBJECT)
  }

  lemma SeparatorEnds(s: Text, j: nat, ws: Text, tail: Text)
    requires Occurs(s, j, ws + tail) && AllWs(ws) && Separates(tail)
    ensures NumEnds(s, j)
  {
    var w := ws + tail;
    assert s[j] == s[j..j + |w|][0];
  }

  /** Space, a value, space, and what separates it from the next. */
  lemma {:induction false} PartComplete(s: Text, i: nat, before: Text, v: Syntax, after: Text, tail: Text, depth: nat)
    requires AllWs(before) && Valid(v) && AllWs(after) && Separates(tail) && depth + Depth(v) <= MAX_DEPTH
    requires Occurs(s, i, before + (Write(v) + (after + tail)))
    ensures var j := i + |before| + |Write(v)|;
      i <= j <= |s| && ValueAt(s, i, depth) == Got(v, j) && s[i..Skip(s, i)] == before
      && Skip(s, j) == j + |after| && j + |after| < |s| && s[j..j + |after|] == after
      && s[j + |after|] == tail[0] && Occurs(s, j + |after|, tail)
    ensures Skip(s, i) < |s| && FirstByte(v, s[Skip(s, i)])
    decreases v, 2
  {
    hide Occurs, AllWs, Skip, ValueAt, NumEnds, Write, FirstByte, Valid;
    var j := i + |before| + |Write(v)|;
    OccursBoth(s, i, before, Write(v) + (after + tail));
    OccursBoth(s, i + |before|, Write(v), after + tail);
    OccursBoth(s, i, before, Write(v));
    SeparatorEnds(s, j, after, tail);
    ValueComplete(s, i, before, v, depth);
    NotSpace(tail);
    SpaceThen(s, j, after, tail);
    FirstOf(v);
    FirstThere(s, i + |before|, Write(v));
  }

  lemma NotSpace(tail: Text)
    requires Separates(tail)
    ensures !IsWs(tail[0])
  {}

  lemma FirstThere(s: Text, i: nat, w: Text)
    requires Occurs(s, i, w) && w != []
    ensures i < |s| && s[i] == w[0]
  {
    assert s[i] == s[i..i + |w|][0];
  }

  lemma {:induction false} ItemsComplete(s: Text, i: nat, items: Items, depth: nat)
    requires ValidItems(items) && Occurs(s, i, WriteItems(items)) && depth + ItemsDepth(items) <= MAX_DEPTH
    ensures i <= |s| && ItemsAt(s, i, depth) == Got(items, i + |WriteItems(items)|)
    ensures !ByteAt(s, Skip(s, i), CLOSE_ARRAY)
    decreases items
  {
    hide Occurs, AllWs, Skip, ValueAt, Write, FirstByte, Valid, Depth;
    match items
    case LastItem(before, v, after) =>
      PartComplete(s, i, before, v, after, [CLOSE_ARRAY], depth);
      NotClosing(v, s, Skip(s, i));
    case Item(before, v, after, rest) =>
      PartComplete(s, i, before, v, after, [COMMA] + WriteItems(rest), depth);
      NotClosing(v, s, Skip(s, i));
      OpenSplit(s, i + |before| + |Write(v)| + |after|, COMMA, WriteItems(rest));
      ItemsComplete(s, i + |before| + |Write(v)| + |after| + 1, rest, depth);
  }

  lemma NotClosing(v: Syntax, s: Text, i: nat)
    requires i < |s| && FirstByte(v, s[i])
    ensures !ByteAt(s, i, CLOSE_ARRAY) && !ByteAt(s, i, CLOSE_OBJECT)
  {}

  lemma {:induction false} MembersComplete(s: Text, i: nat, members: Members, depth: nat)
    requires ValidMembers(members) && Occurs(s, i, WriteMembers(members)) && depth + MembersDepth(members) <= MAX_DEPTH
    ensures i <= |s| && MembersAt(s, i, depth) == Got(members, i + |WriteMembers(members)|)
    ensures !ByteAt(s, Skip(s, i), CLOSE_OBJECT)
    decreases members
  {
    hide Occurs, AllWs, Skip, Write, WriteString, MembersAt, ByteAt, MemberTo, Valid, ValidPieces;
    match members
    case LastMember(before, key, mid, gap, v, after) =>
      var a, b, c, j, k := FrontComplete(s, i, before, key, mid, gap, v, after, [CLOSE_OBJECT], depth);
      LastMemberIs(s, i, a, key, b, c, v, j, k, depth);
    case Member(before, key, mid, gap, v, after, more) =>
      var tail := [COMMA] + WriteMembers(more);
      var a, b, c, j, k := FrontComplete(s, i, before, key, mid, gap, v, after, tail, depth);
      OpenSplit(s, k, COMMA, WriteMembers(more));
      MembersComplete(s, k + 1, more, depth);
      MemberIs(s, i, a, key, b, c, v, j, k, depth);
  }

  /** A member up to what separates it from the next. */
  lemma {:induction false} FrontComplete(s: Text, i: nat, before: Text, key: seq<JsonSyntax.Piece>, mid: Text,
                                         gap: Text, v: Syntax, after: Text, tail: Text, depth: nat)
    returns (a: nat, b: nat, c: nat, j: nat, k: nat)
    requires AllWs(before) && ValidPieces(key) && AllWs(mid) && AllWs(gap) && Valid(v) && AllWs(after)
    requires Separates(tail) && depth + Depth(v) <= MAX_DEPTH
    requires Occurs(s, i, before + (WriteString(key) + (mid + ([COLON] + (gap + (Write(v) + (after + tail)))))))
    ensures MemberTo(s, i, a, key, b, c, v, j, k, depth) && s[k] == tail[0] && Occurs(s, k, tail)
    ensures s[i..a] == before && s[b..c] == mid && s[c + 1..Skip(s, c + 1)] == gap && s[j..k] == after
    ensures a == Skip(s, i) && !ByteAt(s, a, CLOSE_OBJECT)
    ensures k == i + |before| + |WriteString(key)| + |mid| + 1 + |gap| + |Write(v)| + |after|
    decreases v, 3
  {
    hide Occurs, AllWs, Skip, ValueAt, Write, FirstByte, WriteString, QuotedAt, Valid, ValidPieces;
    var w := gap + (Write(v) + (after + tail));
    KeyComplete(s, i, before, key, mid, w);
    a := i + |before|;
    b := a + |WriteString(key)|;
    c := b + |mid|;
    PartComplete(s, c + 1, gap, v, after, tail, depth);
    j := c + 1 + |gap| + |Write(v)|;
    k := j + |after|;
  }

  /** What members-up-to-the-value were found so far. */
  ghost predicate MemberTo(s: Text, i: nat, a: nat, key: seq<JsonSyntax.Piece>, b: nat, c: nat, v: Syntax, j: nat,
                           k: nat, depth: nat) {
    && i <= a < b <= c < |s| && Skip(s, i) == a && QuotedAt(s, a) == Got(key, b) && Skip(s, b) == c
    && ByteAt(s, c, COLON) && ValueAt(s, c + 1, depth) == Got(v, j) && j <= k < |s| && Skip(s, j) == k
  }

  lemma LastMemberIs(s: Text, i: nat, a: nat, key: seq<JsonSyntax.Piece>, b: nat, c: nat, v: Syntax, j: nat, k: nat,
                     depth: nat)
    requires MemberTo(s, i, a, key, b, c, v, j, k, depth) && s[k] == CLOSE_OBJECT
    ensures MembersAt(s, i, depth)
         == Got(LastMember(s[i..a], key, s[b..c], s[c + 1..Skip(s, c + 1)], v, s[j..k]), k + 1)
  {
    hide Skip, QuotedAt, ValueAt, AllWs;
    MembersStart(s, i, a, key, b, c, v, j, k, depth);
  }

  lemma MembersStart(s: Text, i: nat, a: nat, key: seq<JsonSyntax.Piece>, b: nat, c: nat, v: Syntax, j: nat, k: nat,
                     depth: nat)
    requires MemberTo(s, i, a, key, b, c, v, j, k, depth)
    ensures c < j && MembersAt(s, i, depth) == MemberEnd(s, i, a, key, b, c, v, j, depth)
  {
    hide Skip, QuotedAt, ValueAt, ByteAt, AllWs, MemberEnd;
  }

  lemma MemberIs(s: Text, i: nat, a: nat, key: seq<JsonSyntax.Piece>, b: nat, c: nat, v: Syntax, j: nat, k: nat,
                 depth: nat)
    requires MemberTo(s, i, a, key, b, c, v, j, k, depth) && s[k] == COMMA && MembersAt(s, k + 1, depth).Got?
    ensures MembersAt(s, i, depth)
         == Got(Member(s[i..a], key, s[b..c], s[c + 1..Skip(s, c + 1)], v, s[j..k], MembersAt(s, k + 1, depth).t),
                MembersAt(s, k + 1, depth).next)
  {
    hide Skip, QuotedAt, ValueAt, AllWs, MembersAt;
    MembersStart(s, i, a, key, b, c, v, j, k, depth);
  }

  /** Space, a key, space and a colon. */
  lemma KeyComplete(s: Text, i: nat, before: Text, key: seq<JsonSyntax.Piece>, mid: Text, w: Text)
    requires AllWs(before) && ValidPieces(key) && AllWs(mid)
    requires Occurs(s, i, before + (WriteString(key) + (mid + ([COLON] + w))))
    ensures var a := i + |before|;
      var b := a + |WriteString(key)|;
      var c := b + |mid|;
      i <= a < b <= c < |s| && Skip(s, i) == a && s[i..a] == before && QuotedAt(s, a) == Got(key, b)
      && Skip(s, b) == c && s[b..c] == mid && ByteAt(s, c, COLON) && Occurs(s, c + 1, w)
      && !ByteAt(s, a, CLOSE_OBJECT)
  {
    hide *;
    var a := i + |before|;
    var b := a + |WriteString(key)|;
    QuoteFirst(key);
    SpaceThen(s, i, before, WriteString(key) + (mid + ([COLON] + w)));
    OccursBoth(s, a, WriteString(key), mid + ([COLON] + w));
    QuotedComplete(s, a, key);
    SpaceThen(s, b, mid, [COLON] + w);
    OpenSplit(s, b + |mid|, COLON, w);
    NotClosed(s, a);
  }

  lemma QuoteFirst(key: seq<JsonSyntax.Piece>)
    ensures WriteString(key) != [] && WriteString(key)[0] == QUOTE && !IsWs(QUOTE) && !IsWs(COLON)
  {}

  lemma NotClosed(s: Text, a: nat)
    requires a < |s| && s[a] == QUOTE
    ensures !ByteAt(s, a, CLOSE_OBJECT)
  {}

  /* -------------------------------------------------------- documents */

  /** s is t, with space around it, nested no deeper than is allowed. */
  ghost predicate Spells(s: Text, t: Syntax) {
    Valid(t) && Depth(t) <= MAX_DEPTH && exists v: Text, w: Text :: Around(s, v, t, w)
  }

  ghost predicate Around(s: Text, v: Text, t: Syntax, w: Text) {
    AllWs(v) && AllWs(w) && s == v + (Write(t) + w)
  }

  /** A document is accepted, as t, exactly when it is t with space around it. */
  lemma DocumentExact(s: Text, t: Syntax)
    ensures DocumentAt(s) == Got(t, |s|) <==> Spells(s, t)
  {
    if DocumentAt(s) == Got(t, |s|) {
      DocumentSound(s);
    }
    if Spells(s, t) {
      var v: Text, w: Text :| Around(s, v, t, w);
      DocumentComplete(s, v, t, w);
    }
  }

  lemma DocumentSound(s: Text)
    requires DocumentAt(s).Got?
    ensures DocumentAt(s).next == |s| && Spells(s, DocumentAt(s).t)
  {
    hide ValueAt, Write, Valid, Depth, Occurs, AllWs, Skip;
    ValueSound(s, 0, 0);
    var t, j := ValueAt(s, 0, 0).t, ValueAt(s, 0, 0).next;
    var i := Skip(s, 0);
    Sandwich(s, i, Write(t));
    assert Around(s, s[0..i], t, s[j..|s|]);
  }

  lemma Sandwich(s: Text, i: nat, w: Text)
    requires Occurs(s, i, w)
    ensures i + |w| <= |s| && s == s[0..i] + (w + s[i + |w|..|s|])
  {}

  lemma DocumentComplete(s: Text, v: Text, t: Syntax, w: Text)
    requires Valid(t) && Depth(t) <= MAX_DEPTH && Around(s, v, t, w)
    ensures DocumentAt(s) == Got(t, |s|)
  {
    hide ValueAt, Write, Valid, Depth, Occurs, NumEnds, AllWs, Skip;
    var j := |v| + |Write(t)|;
    WholeOccurs(s);
    OccursBoth(s, 0, v, Write(t) + w);
    OccursBoth(s, |v|, Write(t), w);
    OccursBoth(s, 0, v, Write(t));
    SpaceEnds(s, j, w);
    SkipTo(s, j, w);
    ValueComplete(s, 0, v, t, 0);
  }

  lemma WholeOccurs(s: Text)
    ensures Occurs(s, 0, s)
  {
    assert s[0..|s|] == s;
  }

  lemma SpaceEnds(s: Text, j: nat, w: Text)
    requires Occurs(s, j, w) && AllWs(w) && j + |w| == |s|
    ensures NumEnds(s, j)
  {
    if w != [] { assert s[j] == s[j..j + |w|][0]; }
  }

  /** A text has one tree. */
  lemma OneTree(s: Text, t: Syntax, u: Syntax)
    requires Spells(s, t) && Spells(s, u)
    ensures t == u
  {
    DocumentExact(s, t);
    DocumentExact(s, u);
  }
}
