/** Searching chats by title: the LIKE pattern built from a search text, and what SQL makes of it
    (section 8.5 of ISO/IEC 9075, SQL-92). */
module ChatSearching {

  const MAX_CHAT_SEARCH_RUNES := 256
  const LIKE_ESCAPE := '!'

  // ---- the predicate of the database --------------------------------------

  /** A pattern element: any run, any one character, or a character standing for itself. */
  datatype Element = AnyRun | AnyOne | Exactly(c: char)

  datatype Pattern = Malformed | Pattern(elements: seq<Element>)

  /** The elements of a pattern text; an escape must be followed by `%`, `_` or itself. */
  function Read(p: string): Pattern
    decreases |p|
  {
    if p == "" then Pattern([])
    else if p[0] == LIKE_ESCAPE then
      if |p| >= 2 && (p[1] == LIKE_ESCAPE || p[1] == '%' || p[1] == '_')
      then Prepend(Exactly(p[1]), Read(p[2..]))
      else Malformed
    else
      Prepend(if p[0] == '%' then AnyRun else if p[0] == '_' then AnyOne else Exactly(p[0]), Read(p[1..]))
  }

  function Prepend(e: Element, rest: Pattern): Pattern {
    match rest
    case Malformed => Malformed
    case Pattern(elements) => Pattern([e] + elements)
  }

  /** The text can be cut into one piece per element. */
  ghost predicate Matches(elements: seq<Element>, text: string)
    decreases |elements|
  {
    if elements == [] then text == ""
    else
      match elements[0]
      case AnyRun => exists k | 0 <= k <= |text| :: Matches(elements[1..], text[k..])
      case AnyOne => text != "" && Matches(elements[1..], text[1..])
      case Exactly(c) => text != "" && text[0] == c && Matches(elements[1..], text[1..])
  }

  ghost predicate Like(text: string, pattern: string) {
    Read(pattern).Pattern? && Matches(Read(pattern).elements, text)
  }

  // ---- the pattern --------------------------------------------------------

  /** White space of Go's `unicode.IsSpace`. */
  predicate IsSpace(c: char) {
    || '\U{0009}' <= c <= '\U{000D}'
    || c == ' ' || c == '\U{0085}' || c == '\U{00A0}' || c == '\U{1680}'
    || '\U{2000}' <= c <= '\U{200A}'
    || c == '\U{2028}' || c == '\U{2029}' || c == '\U{202F}' || c == '\U{205F}' || c == '\U{3000}'
  }

  function TrimLeft(s: string): (r: string)
    ensures r != "" ==> !IsSpace(r[0])
    ensures |r| <= |s|
  {
    if s == "" || !IsSpace(s[0]) then s else TrimLeft(s[1..])
  }

  function TrimRight(s: string): (r: string)
    ensures r <= s
    ensures r != "" ==> !IsSpace(r[|r| - 1])
  {
    if s == "" || !IsSpace(s[|s| - 1]) then s else TrimRight(s[..|s| - 1])
  }

  function TrimSpace(s: string): (r: string)
    ensures r != "" ==> !IsSpace(r[0]) && !IsSpace(r[|r| - 1])
  {
    TrimRight(TrimLeft(s))
  }

  function ChatSearch(search: string): (r: string)
    ensures |r| <= MAX_CHAT_SEARCH_RUNES && r <= TrimSpace(search)
  {
    var trimmed := TrimSpace(search);
    if |trimmed| > MAX_CHAT_SEARCH_RUNES then trimmed[..MAX_CHAT_SEARCH_RUNES] else trimmed
  }

  /** Every escape and wildcard character of the text, escaped. */
  function Escaped(s: string): string {
    if s == "" then "" else EscapedChar(s[0]) + Escaped(s[1..])
  }

  function EscapedChar(c: char): string {
    if IsSpecial(c) then [LIKE_ESCAPE, c] else [c]
  }

  predicate IsSpecial(c: char) {
    c == LIKE_ESCAPE || c == '%' || c == '_'
  }

  function ChatSearchPattern(search: string): string {
    var text := ChatSearch(search);
    if text == "" then "" else "%" + Escaped(text) + "%"
  }

  /** A percent sign, an underscore and an exclamation mark are each escaped by one. */
  lemma EscapingExample()
    ensures Escaped("5%_!") == "5!%!_!!"
  {
    assert "5%_!"[1..] == "%_!" && "%_!"[1..] == "_!" && "_!"[1..] == "!" && "!"[1..] == "";
  }

  // ---- what the pattern matches -------------------------------------------

  ghost predicate Contains(text: string, part: string) {
    exists k | 0 <= k <= |text| :: part <= text[k..]
  }

  function Literally(s: string): (r: seq<Element>)
    ensures |r| == |s| && forall i | 0 <= i < |s| :: r[i] == Exactly(s[i])
  {
    seq(|s|, i requires 0 <= i < |s| => Exactly(s[i]))
  }

  lemma EscapedCharReads(c: char, rest: string)
    ensures Read(EscapedChar(c) + rest) == Prepend(Exactly(c), Read(rest))
  {
    var p := EscapedChar(c) + rest;
    if IsSpecial(c) {
      assert p[2..] == rest;
    } else {
      assert p[1..] == rest;
    }
  }

  /** Escaping makes every character stand for itself. */
  lemma {:induction false} EscapedReads(s: string, tail: string)
    requires Read(tail).Pattern?
    ensures Read(Escaped(s) + tail) == Pattern(Literally(s) + Read(tail).elements)
    decreases |s|
  {
    if s == "" {
      assert Escaped(s) + tail == tail;
      assert Literally(s) + Read(tail).elements == Read(tail).elements;
    } else {
      var rest := Escaped(s[1..]) + tail;
      EscapedReads(s[1..], tail);
      EscapedCharReads(s[0], rest);
      assert Escaped(s) + tail == EscapedChar(s[0]) + rest;
      LiterallyCons(s, Read(tail).elements);
    }
  }

  lemma LiterallyCons(s: string, more: seq<Element>)
    requires s != ""
    ensures Literally(s) + more == [Exactly(s[0])] + (Literally(s[1..]) + more)
  {}

  /** A literal run followed by anything matches exactly the texts that start with it. */
  lemma {:induction false} LiteralPrefix(s: string, text: string)
    ensures Matches(Literally(s) + [AnyRun], text) <==> s <= text
    decreases |s|
  {
    var elements := Literally(s) + [AnyRun];
    if s == "" {
      assert elements == [AnyRun] && elements[1..] == [];
      assert text[|text|..] == "";
      assert Matches(elements[1..], text[|text|..]);
    } else {
      assert elements[1..] == Literally(s[1..]) + [AnyRun];
      if text != "" {
        LiteralPrefix(s[1..], text[1..]);
        assert s <= text <==> s[0] == text[0] && s[1..] <= text[1..] by {
          assert s == [s[0]] + s[1..] && text == [text[0]] + text[1..];
        }
      }
    }
  }

  /** For every title and every search text that is not blank, the built pattern matches exactly the
      titles that contain the normalised text, whatever `!`, `%` and `_` it is made of. */
  lemma PatternMatchesSubstring(title: string, search: string)
    requires ChatSearch(search) != ""
    ensures Like(title, ChatSearchPattern(search)) <==> Contains(title, ChatSearch(search))
  {
    LoweredPatternMatches(title, search, c => c);
    var pattern := ChatSearchPattern(search);
    LowerIdentity(pattern);
    LowerIdentity(title);
    LowerIdentity(ChatSearch(search));
  }

  // ---- letter case --------------------------------------------------------

  function Lower(lower: char -> char, s: string): (r: string)
    ensures |r| == |s| && forall i | 0 <= i < |s| :: r[i] == lower(s[i])
  {
    seq(|s|, i requires 0 <= i < |s| => lower(s[i]))
  }

  lemma LowerIdentity(s: string)
    ensures Lower(c => c, s) == s
  {}

  /** Lower case neither makes nor unmakes an escape or a wildcard. */
  ghost predicate KeepsSpecials(lower: char -> char) {
    forall c: char :: (IsSpecial(c) ==> lower(c) == c) && (IsSpecial(lower(c)) ==> IsSpecial(c))
  }

  lemma {:induction false} LowerEscaped(lower: char -> char, s: string)
    requires KeepsSpecials(lower)
    ensures Lower(lower, Escaped(s)) == Escaped(Lower(lower, s))
    decreases |s|
  {
    if s != "" {
      LowerEscaped(lower, s[1..]);
      assert Lower(lower, s)[1..] == Lower(lower, s[1..]);
      LowerConcat(lower, EscapedChar(s[0]), Escaped(s[1..]));
      LowerEscapedChar(lower, s[0]);
    }
  }

  lemma LowerConcat(lower: char -> char, a: string, b: string)
    ensures Lower(lower, a + b) == Lower(lower, a) + Lower(lower, b)
  {}

  lemma LowerEscapedChar(lower: char -> char, c: char)
    requires KeepsSpecials(lower)
    ensures Lower(lower, EscapedChar(c)) == EscapedChar(lower(c))
  {
    assert IsSpecial(LIKE_ESCAPE);
  }

  /** The query compares in lower case: it selects exactly the titles that contain the search text
      when letter case is ignored. */
  lemma LoweredPatternMatches(title: string, search: string, lower: char -> char)
    requires KeepsSpecials(lower) && ChatSearch(search) != ""
    ensures Like(Lower(lower, title), Lower(lower, ChatSearchPattern(search)))
        <==> Contains(Lower(lower, title), Lower(lower, ChatSearch(search)))
  {
    var text := Lower(lower, ChatSearch(search));
    var pattern := Lower(lower, ChatSearchPattern(search));
    LowerEscaped(lower, ChatSearch(search));
    assert IsSpecial('%');
    assert pattern == ['%'] + (Escaped(text) + "%");
    assert pattern[1..] == Escaped(text) + "%";
    assert "%"[1..] == "" && Read("%") == Pattern([AnyRun] + []);
    EscapedReads(text, "%");
    var rest := Literally(text) + [AnyRun];
    assert Read(pattern) == Pattern([AnyRun] + rest);
    assert ([AnyRun] + rest)[1..] == rest;
    var t := Lower(lower, title);
    forall k | 0 <= k <= |t|
      ensures Matches(rest, t[k..]) <==> text <= t[k..]
    {
      LiteralPrefix(text, t[k..]);
    }
  }

  /** The empty pattern, which switches the filter off, is built from blank texts only. */
  lemma {:induction false} NoFilterWhenBlank(search: string)
    ensures ChatSearchPattern(search) == "" <==> forall i | 0 <= i < |search| :: IsSpace(search[i])
  {
    TrimLeftBlank(search);
    var t := TrimLeft(search);
    if t != "" {
      TrimRightVisible(t);
    }
  }

  lemma {:induction false} TrimLeftBlank(s: string)
    ensures TrimLeft(s) == "" <==> forall i | 0 <= i < |s| :: IsSpace(s[i])
  {
    if s != "" && IsSpace(s[0]) {
      TrimLeftBlank(s[1..]);
      assert (forall i | 0 <= i < |s| :: IsSpace(s[i])) <==> forall i | 0 <= i < |s[1..]| :: IsSpace(s[1..][i]) by {
        assert forall i | 1 <= i < |s| :: s[i] == s[1..][i - 1];
      }
    }
  }

  lemma {:induction false} TrimRightVisible(s: string)
    requires s != "" && !IsSpace(s[0])
    ensures TrimRight(s) != ""
  {
    if IsSpace(s[|s| - 1]) {
      TrimRightVisible(s[..|s| - 1]);
    }
  }

  // ---- normalising twice --------------------------------------------------

  lemma {:induction false} TrimSpaceFixed(s: string)
    requires s != "" ==> !IsSpace(s[0]) && !IsSpace(s[|s| - 1])
    ensures TrimSpace(s) == s
  {}

  lemma TrimRightDrops(s: string)
    requires s != "" && IsSpace(s[|s| - 1])
    ensures TrimRight(s) != s
  {
    assert |TrimRight(s[..|s| - 1])| < |s|;
  }

  /** The search text ends on a space after normalising exactly when the cut falls on one. */
  predicate CutOnSpace(search: string) {
    var trimmed := TrimSpace(search);
    |trimmed| > MAX_CHAT_SEARCH_RUNES && IsSpace(trimmed[MAX_CHAT_SEARCH_RUNES - 1])
  }

  /** Normalising is idempotent exactly when the cut at the length limit does not fall on a space:
      it trims before it cuts. */
  lemma NormalisingTwice(search: string)
    ensures ChatSearch(ChatSearch(search)) == ChatSearch(search) <==> !CutOnSpace(search)
  {
    var once := ChatSearch(search);
    if CutOnSpace(search) {
      assert once[0] == TrimSpace(search)[0];
      assert TrimLeft(once) == once;
      TrimRightDrops(once);
    } else {
      assert once != "" ==> once[0] == TrimSpace(search)[0];
      TrimSpaceFixed(once);
    }
  }

  /** Such a search: 255 letters, a space and a letter. */
  lemma NormalisingTwiceExample()
    ensures var letters := seq(255, _ => 'a');
            ChatSearch(letters + " a") == letters + " " && ChatSearch(letters + " ") == letters
  {
    var letters := seq(255, _ => 'a');
    var search := letters + " a";
    assert TrimLeft(search) == search && TrimRight(search) == search;
    assert search[..MAX_CHAT_SEARCH_RUNES] == letters + " ";
    assert (letters + " ")[..MAX_CHAT_SEARCH_RUNES - 1] == letters;
    assert TrimLeft(letters + " ") == letters + " ";
    assert TrimRight(letters + " ") == TrimRight(letters) == letters;
  }
}
