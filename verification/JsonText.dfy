/** JSON texts (RFC 8259, sections 2 to 7) as syntax trees that keep every insignificant
    white space and every escape, and how the patch accumulator sees their printed form. */
module JsonText {
  import opened Collections
  import opened Wrappers
  import opened Text
  import opened PatchAccumulators

  datatype StringItem =
    | Plain(c: char)
    | Escape(c: char)
    | UnicodeEscape(digits: string)

  datatype Json =
    | Word(name: string)
    | Number(minus: bool, integer: string, fraction: Option<string>, exponent: Option<(char, string, string)>)
    | Str(items: seq<StringItem>)
    | Array(open: string, elements: Elements)
    | Object(open: string, members: Members)

  // `open` is the space after the opening bracket, `after` the space after a value and `before`
  // the space between a comma and what it introduces.
  datatype Elements =
    | NoElements
    | Element(value: Json, after: string, before: string, others: Elements)

  datatype Members =
    | NoMembers
    | Member(key: seq<StringItem>, afterKey: string, beforeValue: string, value: Json,
             after: string, before: string, rest: Members)

  // ---- the grammar --------------------------------------------------------

  predicate IsWs(s: string) {
    forall i | 0 <= i < |s| :: s[i] == ' ' || s[i] == '\t' || s[i] == '\n' || s[i] == '\r'
  }

  predicate IsDigit(c: char) { '0' <= c <= '9' }

  predicate IsHex(c: char) { IsDigit(c) || 'a' <= c <= 'f' || 'A' <= c <= 'F' }

  predicate Digits(s: string) {
    s != "" && forall i | 0 <= i < |s| :: IsDigit(s[i])
  }

  predicate ValidItem(item: StringItem) {
    match item
    case Plain(c) => c >= ' ' && c != '"' && c != '\\'
    case Escape(c) => c in "\"\\/bfnrt"
    case UnicodeEscape(digits) => |digits| == 4 && forall i | 0 <= i < 4 :: IsHex(digits[i])
  }

  predicate ValidItems(items: seq<StringItem>) {
    forall i | 0 <= i < |items| :: ValidItem(items[i])
  }

  predicate ValidNumber(integer: string, fraction: Option<string>, exponent: Option<(char, string, string)>) {
    && Digits(integer) && (|integer| > 1 ==> integer[0] != '0')
    && (fraction.Some? ==> Digits(fraction.value))
    && (exponent.Some? ==>
          && exponent.value.0 in "eE" && exponent.value.1 in ["", "+", "-"]
          && Digits(exponent.value.2))
  }

  predicate Valid(v: Json) {
    match v
    case Word(name) => name in ["true", "false", "null"]
    case Number(_, integer, fraction, exponent) => ValidNumber(integer, fraction, exponent)
    case Str(items) => ValidItems(items)
    case Array(open, elements) => IsWs(open) && ValidElements(elements)
    case Object(open, members) => IsWs(open) && ValidMembers(members)
  }

  predicate ValidElements(e: Elements) {
    e.Element? ==>
      && Valid(e.value) && IsWs(e.after) && IsWs(e.before)
      && (e.others.NoElements? ==> e.before == "") && ValidElements(e.others)
  }

  predicate ValidMembers(m: Members) {
    m.Member? ==>
      && ValidItems(m.key) && IsWs(m.afterKey) && IsWs(m.beforeValue)
      && Valid(m.value) && IsWs(m.after) && IsWs(m.before)
      && (m.rest.NoMembers? ==> m.before == "") && ValidMembers(m.rest)
  }

  // ---- printing -----------------------------------------------------------

  function PrintItem(item: StringItem): string {
    match item
    case Plain(c) => [c]
    case Escape(c) => ['\\', c]
    case UnicodeEscape(digits) => "\\u" + digits
  }

  function PrintItems(items: seq<StringItem>): string {
    if items == [] then "" else PrintItem(items[0]) + PrintItems(items[1..])
  }

  function Quoted(items: seq<StringItem>): string {
    "\"" + PrintItems(items) + "\""
  }

  function PrintNumber(minus: bool, integer: string, fraction: Option<string>,
                       exponent: Option<(char, string, string)>): string
  {
    (if minus then "-" else "") + integer
    + (if fraction.Some? then "." + fraction.value else "")
    + (if exponent.Some? then [exponent.value.0] + exponent.value.1 + exponent.value.2 else "")
  }

  function Print(v: Json): string {
    match v
    case Word(name) => name
    case Number(minus, integer, fraction, exponent) => PrintNumber(minus, integer, fraction, exponent)
    case Str(items) => Quoted(items)
    case Array(open, elements) => "[" + (open + PrintElements(elements)) + "]"
    case Object(open, members) => "{" + (open + PrintMembers(members)) + "}"
  }

  function PrintElements(e: Elements): string {
    match e
    case NoElements => ""
    case Element(value, after, before, others) =>
      Print(value) + after + (if others.NoElements? then "" else ("," + before) + PrintElements(others))
  }

  function PrintMembers(m: Members): string {
    match m
    case NoMembers => ""
    case Member(key, afterKey, beforeValue, value, after, before, rest) =>
      Quoted(key) + (afterKey + ":" + beforeValue) + Print(value) + after
      + (if rest.NoMembers? then "" else ("," + before) + PrintMembers(rest))
  }

  // ---- scanning -----------------------------------------------------------

  /** Between tokens: neither inside a string nor after a backslash. */
  predicate Outside(s: Scan) { !s.inString && !s.escapeNext }

  /** A character that is neither a quote nor a bracket, nor one that only strings contain. */
  predicate Inert(c: char) { c !in "\"{}[]`" }

  predicate AllInert(t: string) {
    forall i | 0 <= i < |t| :: Inert(t[i])
  }

  /** Backquotes occur only inside strings, newlines only outside. */
  predicate Tidy(s: Scan, t: string)
    decreases t
  {
    t == "" || ((t[0] == '`' ==> s.inString) && (t[0] == '\n' ==> !s.inString) && Tidy(Step(s, t[0]), t[1..]))
  }

  lemma {:induction false} TidyConcat(s: Scan, a: string, b: string)
    ensures Tidy(s, a + b) <==> Tidy(s, a) && Tidy(Run(s, a), b)
    decreases |a|
  {
    if a == "" {
      assert a + b == b;
    } else {
      assert (a + b)[0] == a[0] && (a + b)[1..] == a[1..] + b;
      TidyConcat(Step(s, a[0]), a[1..], b);
    }
  }

  /** Tidy text that the scan goes through without a net change, never dipping below its own depth. */
  predicate Level(s: Scan, t: string, opens: bool) {
    Run(s, t) == s.(sawOpen := s.sawOpen || opens) && StaysAbove(s, t, s.depth) && Tidy(s, t)
  }

  lemma {:induction false} InertLevel(s: Scan, t: string)
    requires Outside(s) && AllInert(t)
    ensures Level(s, t, false)
    decreases t
  {
    if t != "" {
      assert Inert(t[0]);
      assert Step(s, t[0]) == s;
      InertLevel(s, t[1..]);
    }
  }

  lemma LevelConcat(s: Scan, a: string, b: string, opensA: bool, opensB: bool)
    requires Level(s, a, opensA) && Level(Run(s, a), b, opensB)
    ensures Level(s, a + b, opensA || opensB)
  {
    RunConcat(s, a, b);
    StaysAboveConcat(s, a, b, s.depth);
    TidyConcat(s, a, b);
  }

  /** String content is inert whatever it contains: brackets, escaped quotes, backslashes. */
  lemma {:induction false} ItemsLevel(s: Scan, items: seq<StringItem>)
    requires s.inString && !s.escapeNext && ValidItems(items)
    ensures Level(s, PrintItems(items), false)
    decreases |items|
  {
    if items != [] {
      var t := PrintItem(items[0]);
      assert ValidItem(items[0]);
      match items[0] {
        case Plain(c) => PlainLevel(s, t);
        case Escape(c) =>
          EscapeLevel(s, c, "");
          assert t == ['\\', c] + "";
        case UnicodeEscape(d) =>
          EscapeLevel(s, 'u', d);
          assert t == ['\\', 'u'] + d;
      }
      ItemsLevel(s, items[1..]);
      LevelConcat(s, t, PrintItems(items[1..]), false, false);
    }
  }

  /** A backslash takes the next character with it, whatever that is. */
  lemma EscapeLevel(s: Scan, c: char, t: string)
    requires s.inString && !s.escapeNext && c != '\n'
    requires forall i | 0 <= i < |t| :: t[i] != '"' && t[i] != '\\' && t[i] != '\n'
    ensures Level(s, ['\\', c] + t, false)
  {
    var u := ['\\', c] + t;
    var armed := Step(s, '\\');
    assert u[1..] == [c] + t && u[1..][1..] == t;
    assert Step(armed, c) == s;
    assert Run(armed, u[1..]) == Run(s, t);
    PlainLevel(s, t);
    assert StaysAbove(armed, u[1..], s.depth);
  }

  lemma {:induction false} PlainLevel(s: Scan, t: string)
    requires s.inString && !s.escapeNext
    requires forall i | 0 <= i < |t| :: t[i] != '"' && t[i] != '\\' && t[i] != '\n'
    ensures Level(s, t, false)
    decreases t
  {
    if t != "" {
      assert Step(s, t[0]) == s;
      PlainLevel(s, t[1..]);
    }
  }

  lemma QuotedLevel(s: Scan, items: seq<StringItem>)
    requires Outside(s) && ValidItems(items)
    ensures Level(s, Quoted(items), false)
  {
    var t := PrintItems(items);
    var inside := Step(s, '"');
    ItemsLevel(inside, items);
    assert (t + "\"") == t + ['"'];
    RunConcat(inside, t, "\"");
    assert "\""[1..] == "";
    StaysAboveConcat(inside, t, "\"", s.depth);
    TidyConcat(inside, t, "\"");
    assert Quoted(items)[0] == '"' && Quoted(items)[1..] == t + "\"";
  }

  lemma WsInert(w: string)
    requires IsWs(w)
    ensures AllInert(w) && Blank(w)
  {}

  lemma NumberInert(minus: bool, integer: string, fraction: Option<string>,
                    exponent: Option<(char, string, string)>)
    requires ValidNumber(integer, fraction, exponent)
    ensures AllInert(PrintNumber(minus, integer, fraction, exponent))
    ensures PrintNumber(minus, integer, fraction, exponent) != ""
    ensures var t := PrintNumber(minus, integer, fraction, exponent);
            IsDigit(t[|t| - 1])
  {}

  predicate Opens(v: Json) { v.Array? || v.Object? }

  /** Printing a valid value and scanning it comes back to where the scan was. */
  lemma {:induction false} ValueLevel(s: Scan, v: Json)
    requires Outside(s) && Valid(v)
    ensures Level(s, Print(v), Opens(v))
    decreases v, 1
  {
    match v
    case Array(open, elements) =>
      WsInert(open);
      ElementsLevel(Step(s, '['), elements);
      ContentLevel(s, '[', open, PrintElements(elements), ']');
    case Object(open, members) =>
      WsInert(open);
      MembersLevel(Step(s, '{'), members);
      ContentLevel(s, '{', open, PrintMembers(members), '}');
    case _ => ScalarLevel(s, v);
  }

  lemma ScalarLevel(s: Scan, v: Json)
    requires Outside(s) && Valid(v) && !Opens(v)
    ensures Level(s, Print(v), false)
  {
    match v
    case Word(name) => InertLevel(s, name);
    case Number(minus, integer, fraction, exponent) =>
      NumberInert(minus, integer, fraction, exponent);
      InertLevel(s, Print(v));
    case Str(items) => QuotedLevel(s, items);
  }

  lemma ContentLevel(s: Scan, l: char, open: string, content: string, r: char)
    requires Outside(s) && ((l == '[' && r == ']') || (l == '{' && r == '}'))
    requires AllInert(open) && Level(Step(s, l), content, false)
    ensures Level(s, [l] + (open + content) + [r], true)
    ensures Run(s, [l] + (open + content)) == Step(s, l)
  {
    InertLevel(Step(s, l), open);
    LevelConcat(Step(s, l), open, content, false, false);
    BracketLevel(s, l, open + content, r);
  }

  lemma BracketLevel(s: Scan, l: char, body: string, r: char)
    requires Outside(s) && ((l == '[' && r == ']') || (l == '{' && r == '}'))
    requires Level(Step(s, l), body, false)
    ensures Level(s, [l] + body + [r], true)
    ensures Run(s, [l] + body) == Step(s, l)
  {
    var inner := Step(s, l);
    var t := [l] + body;
    assert t[0] == l && t[1..] == body;
    RunSnoc(s, t, r);
    StaysAboveWeaken(inner, body, inner.depth, s.depth);
    assert [r][1..] == "";
    StaysAboveConcat(s, t, [r], s.depth);
    TidyConcat(s, t, [r]);
  }

  lemma {:induction false} StaysAboveWeaken(s: Scan, t: string, d: int, e: int)
    requires StaysAbove(s, t, d) && e <= d
    ensures StaysAbove(s, t, e)
    decreases t
  {
    if t != "" {
      StaysAboveWeaken(Step(s, t[0]), t[1..], d, e);
    }
  }

  lemma {:induction false} ElementsLevel(s: Scan, e: Elements)
    requires Outside(s) && s.sawOpen && ValidElements(e)
    ensures Level(s, PrintElements(e), false)
    decreases e, 0
  {
    if e.Element? {
      ValueLevel(s, e.value);
      WsInert(e.after);
      InertLevel(s, e.after);
      LevelConcat(s, Print(e.value), e.after, Opens(e.value), false);
      if e.others.Element? {
        WsInert(e.before);
        ElementsLevel(s, e.others);
        CommaLevel(s, Print(e.value) + e.after, e.before, PrintElements(e.others));
      } else {
        assert PrintElements(e) == Print(e.value) + e.after;
      }
    }
  }

  lemma CommaLevel(s: Scan, t: string, before: string, more: string)
    requires Outside(s) && AllInert(before) && Level(s, t, false) && Level(s, more, false)
    ensures Level(s, t + (("," + before) + more), false)
  {
    InertLevel(s, "," + before);
    LevelConcat(s, "," + before, more, false, false);
    LevelConcat(s, t, ("," + before) + more, false, false);
  }

  lemma {:induction false} MembersLevel(s: Scan, m: Members)
    requires Outside(s) && s.sawOpen && ValidMembers(m)
    ensures Level(s, PrintMembers(m), false)
    decreases m, 0
  {
    if m.Member? {
      ValueLevel(s, m.value);
      WsInert(m.afterKey);
      WsInert(m.beforeValue);
      WsInert(m.after);
      MemberLevel(s, m.key, m.afterKey + ":" + m.beforeValue, Print(m.value), m.after);
      var t := Quoted(m.key) + (m.afterKey + ":" + m.beforeValue) + Print(m.value) + m.after;
      if m.rest.Member? {
        WsInert(m.before);
        MembersLevel(s, m.rest);
        CommaLevel(s, t, m.before, PrintMembers(m.rest));
      } else {
        assert PrintMembers(m) == t;
      }
    }
  }

  lemma MemberLevel(s: Scan, key: seq<StringItem>, colon: string, value: string, after: string)
    requires Outside(s) && ValidItems(key) && AllInert(colon) && AllInert(after) && Level(s, value, false)
    ensures Level(s, Quoted(key) + colon + value + after, false)
  {
    QuotedLevel(s, key);
    InertLevel(s, colon);
    LevelConcat(s, Quoted(key), colon, false, false);
    LevelConcat(s, Quoted(key) + colon, value, false, false);
    InertLevel(s, after);
    LevelConcat(s, Quoted(key) + colon + value, after, false, false);
  }

  // ---- the accumulator agrees with the grammar ----------------------------

  /** The printed object without its final brace. */
  function Body(v: Json): string
    requires v.Object?
  {
    "{" + (v.open + PrintMembers(v.members))
  }

  /** The scan inside the outermost braces. */
  const INNER := Scan(1, false, false, true, "}")

  lemma BodyScan(lead: string, v: Json)
    requires IsWs(lead) && v.Object? && Valid(v)
    ensures Run(FRESH, lead) == FRESH
    ensures Run(FRESH, lead + Body(v)) == INNER
    ensures StaysAbove(INNER, v.open + PrintMembers(v.members), 1)
  {
    WsInert(lead);
    InertLevel(FRESH, lead);
    WsInert(v.open);
    InertLevel(INNER, v.open);
    MembersLevel(INNER, v.members);
    LevelConcat(INNER, v.open, PrintMembers(v.members), false, false);
    assert Step(FRESH, '{') == INNER;
    ContentLevel(FRESH, '{', v.open, PrintMembers(v.members), '}');
    RunConcat(FRESH, lead, Body(v));
  }

  lemma IncompleteInside(lead: string, v: Json, k: nat)
    requires IsWs(lead) && v.Object? && Valid(v) && k <= |lead + Body(v)|
    ensures !IsComplete(Run(FRESH, (lead + Body(v))[..k]))
  {
    var p := (lead + Body(v))[..k];
    BodyScan(lead, v);
    if k <= |lead| {
      assert p == lead[..k];
      WsInert(p);
      InertLevel(FRESH, p);
    } else {
      var content := v.open + PrintMembers(v.members);
      var j := k - |lead| - 1;
      assert p == (lead + ['{']) + content[..j];
      RunSnoc(FRESH, lead, '{');
      assert Step(FRESH, '{') == INNER;
      RunConcat(FRESH, lead + ['{'], content[..j]);
      StaysAbovePrefix(INNER, content, 1, j);
    }
  }

  lemma CompleteAfter(lead: string, v: Json, w: string)
    requires IsWs(lead) && IsWs(w) && v.Object? && Valid(v)
    ensures IsComplete(Run(FRESH, lead + Print(v) + w))
  {
    BodyScan(lead, v);
    RunSnoc(FRESH, lead + Body(v), '}');
    assert lead + Print(v) == lead + Body(v) + ['}'];
    RunConcat(FRESH, lead + Print(v), w);
    WsInert(w);
    InertLevel(Run(FRESH, lead + Print(v)), w);
  }

  /** An object is complete exactly when its final brace has been fed: at no earlier prefix, and
      still after any white space that follows. */
  lemma CompleteAtFinalBrace(lead: string, v: Json, tail: string, k: nat)
    requires IsWs(lead) && IsWs(tail) && v.Object? && Valid(v)
    requires k <= |lead + Print(v) + tail|
    ensures IsComplete(Run(FRESH, (lead + Print(v) + tail)[..k])) <==> k >= |lead + Print(v)|
  {
    var t := lead + Print(v);
    assert t == lead + Body(v) + ['}'];
    if k < |t| {
      IncompleteInside(lead, v, k);
      assert (t + tail)[..k] == (lead + Body(v))[..k];
    } else {
      var w := tail[..k - |t|];
      assert (t + tail)[..k] == t + w;
      CompleteAfter(lead, v, w);
    }
  }

  // ---- repairing a dropped final brace ------------------------------------

  /** The same object without the space before its final brace. */
  function Tight(v: Json): Json
    requires v.Object?
  {
    if v.members.NoMembers? then Object("", NoMembers) else Object(v.open, TightMembers(v.members))
  }

  function TightMembers(m: Members): Members
    requires m.Member?
  {
    if m.rest.NoMembers? then m.(after := "") else m.(rest := TightMembers(m.rest))
  }

  /** The value alone: all insignificant white space forgotten. */
  function Meaning(v: Json): Json {
    match v
    case Array(_, elements) => Array("", ElementsMeaning(elements))
    case Object(_, members) => Object("", MembersMeaning(members))
    case _ => v
  }

  function ElementsMeaning(e: Elements): Elements {
    match e
    case NoElements => NoElements
    case Element(value, _, _, others) => Element(Meaning(value), "", "", ElementsMeaning(others))
  }

  function MembersMeaning(m: Members): Members {
    match m
    case NoMembers => NoMembers
    case Member(key, _, _, value, _, _, rest) =>
      Member(key, "", "", Meaning(value), "", "", MembersMeaning(rest))
  }

  lemma {:induction false} EndsVisible(v: Json)
    requires Valid(v)
    ensures Print(v) != "" && !IsSpace(Print(v)[|Print(v)| - 1])
  {
    match v
    case Number(minus, integer, fraction, exponent) => NumberInert(minus, integer, fraction, exponent);
    case _ =>
  }

  /** The white space a member list ends on. */
  function LastSpace(m: Members): string
    requires m.Member?
  {
    if m.rest.NoMembers? then m.after else LastSpace(m.rest)
  }

  predicate Visible(t: string) {
    t != "" && !IsSpace(t[|t| - 1])
  }

  lemma {:induction false} TightMembersPrint(m: Members)
    requires m.Member? && ValidMembers(m)
    ensures ValidMembers(TightMembers(m)) && MembersMeaning(TightMembers(m)) == MembersMeaning(m)
    ensures PrintMembers(m) == PrintMembers(TightMembers(m)) + LastSpace(m)
    ensures IsWs(LastSpace(m)) && Visible(PrintMembers(TightMembers(m)))
  {
    var head := Quoted(m.key) + (m.afterKey + ":" + m.beforeValue) + Print(m.value);
    if m.rest.NoMembers? {
      EndsVisible(m.value);
      assert PrintMembers(TightMembers(m)) == head;
      assert head[|head| - 1] == Print(m.value)[|Print(m.value)| - 1];
    } else {
      TightMembersPrint(m.rest);
      TightRest(head + m.after, "," + m.before, PrintMembers(TightMembers(m.rest)), LastSpace(m.rest));
    }
  }

  lemma TightRest(a: string, b: string, t: string, w: string)
    requires Visible(t)
    ensures a + (b + (t + w)) == (a + (b + t)) + w
    ensures Visible(a + (b + t))
  {
    assert (a + (b + t))[|a + (b + t)| - 1] == t[|t| - 1];
  }

  lemma TightKeepsMeaning(v: Json) returns (w: string)
    requires v.Object? && Valid(v)
    ensures Tight(v).Object? && Valid(Tight(v)) && Meaning(Tight(v)) == Meaning(v)
    ensures IsWs(w) && Body(v) == Body(Tight(v)) + w && Visible(Body(Tight(v)))
  {
    if v.members.NoMembers? {
      w := v.open;
    } else {
      w := LastSpace(v.members);
      TightMembersPrint(v.members);
      TightRest("{", v.open, PrintMembers(TightMembers(v.members)), w);
    }
  }

  /** With only the final brace missing, the accumulator knows it can repair the text, and the
      repair is the object itself up to the white space before that brace. */
  lemma RepairRestoresObject(lead: string, v: Json, tail: string)
    requires IsWs(lead) && IsWs(tail) && v.Object? && Valid(v)
    ensures Run(FRESH, lead + Body(v) + tail) == INNER && CanRepair(INNER) && !IsComplete(INNER)
    ensures Repaired(lead + Body(v) + tail, INNER) == lead + Print(Tight(v))
    ensures Valid(Tight(v)) && Meaning(Tight(v)) == Meaning(v)
  {
    BodyScan(lead, v);
    WsInert(tail);
    InertLevel(INNER, tail);
    RunConcat(FRESH, lead + Body(v), tail);
    var w := TightKeepsMeaning(v);
    RepairText(lead, Body(Tight(v)), w, tail);
  }

  lemma SolidRepaired(solid: string, blank: string)
    requires Visible(solid) && Blank(blank)
    ensures Repaired(solid + blank, INNER) == solid + "}"
  {
    TrimEndIgnoresTail(solid, blank);
    assert Reversed("}") == "}";
  }

  lemma Regroup(lead: string, body: string, w: string, tail: string)
    ensures lead + (body + w) + tail == (lead + body) + (w + tail)
  {}

  lemma RepairText(lead: string, body: string, w: string, tail: string)
    requires IsWs(w) && IsWs(tail) && Visible(body)
    ensures Repaired(lead + (body + w) + tail, INNER) == lead + (body + "}")
  {
    Regroup(lead, body, w, tail);
    WsInert(w + tail);
    assert (lead + body)[|lead + body| - 1] == body[|body| - 1];
    SolidRepaired(lead + body, w + tail);
    ConcatAssociative(lead, body, "}");
  }

}
