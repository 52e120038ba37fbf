/** Strings as sequences of Unicode scalar values: white space, trimming and splitting into lines. */
module Text {

  /** White space of ECMAScript's `trim` and `\s` (WhiteSpace and LineTerminator). */
  predicate IsSpace(c: char) {
    || '\U{0009}' <= c <= '\U{000D}'
    || c == ' ' || c == '\U{00A0}' || c == '\U{1680}'
    || '\U{2000}' <= c <= '\U{200A}'
    || c == '\U{2028}' || c == '\U{2029}' || c == '\U{202F}' || c == '\U{205F}' || c == '\U{3000}'
    || c == '\U{FEFF}'
  }

  /** Every character from position `i` up to `j` is white space. */
  predicate SpaceRun(s: string, i: nat, j: nat)
    requires i <= j <= |s|
  {
    forall k | i <= k < j :: IsSpace(s[k])
  }

  predicate Blank(s: string) {
    SpaceRun(s, 0, |s|)
  }

  /** How many white space characters a text starts with. */
  function LeadOf(s: string): (n: nat)
    ensures n <= |s| && SpaceRun(s, 0, n)
    ensures n < |s| ==> !IsSpace(s[n])
  {
    if s == "" || !IsSpace(s[0]) then 0 else 1 + LeadOf(s[1..])
  }

  /** The position just after the last visible character. */
  function EndOf(s: string): (n: nat)
    ensures n <= |s| && SpaceRun(s, n, |s|)
    ensures n > 0 ==> !IsSpace(s[n - 1])
  {
    if s == "" || !IsSpace(s[|s| - 1]) then |s| else EndOf(s[..|s| - 1])
  }

  function TrimStart(s: string): string {
    s[LeadOf(s)..]
  }

  function TrimEnd(s: string): string {
    s[..EndOf(s)]
  }

  function Trim(s: string): string {
    TrimEnd(TrimStart(s))
  }

  lemma TrimBlank(s: string)
    ensures Trim(s) == "" <==> Blank(s)
  {
    var n := LeadOf(s);
    if n < |s| {
      assert TrimStart(s)[0] == s[n];
    }
  }

  /** White space after the text is irrelevant to trimming its end. */
  lemma TrimEndIgnoresTail(s: string, w: string)
    requires Blank(w)
    ensures TrimEnd(s + w) == TrimEnd(s)
  {
    var n := EndOf(s);
    assert forall k | n <= k < |s + w| :: IsSpace((s + w)[k]);
    assert n > 0 ==> (s + w)[n - 1] == s[n - 1];
    assert EndOf(s + w) == n;
  }

  /** A text that is not blank keeps where its trimmed form begins when it is extended. */
  lemma TrimStartExtends(s: string, y: string)
    requires !Blank(s)
    ensures TrimStart(s) != ""
    ensures TrimStart(s + y) == TrimStart(s) + y
  {
    var n := LeadOf(s);
    assert (s + y)[n] == s[n];
    assert forall k | 0 <= k < n :: (s + y)[k] == s[k];
    assert LeadOf(s + y) == n;
  }

  /** White space around a text that starts on a visible character does not change its trimmed form. */
  lemma TrimSurrounded(lead: string, s: string, tail: string)
    requires Blank(lead) && Blank(tail) && s != "" && !IsSpace(s[0])
    ensures Trim(lead + s + tail) == Trim(s)
  {
    var all := lead + s + tail;
    assert all[|lead|] == s[0];
    assert forall k | 0 <= k < |lead| :: all[k] == lead[k];
    assert LeadOf(all) == |lead| && LeadOf(s) == 0;
    assert TrimStart(all) == s + tail && TrimStart(s) == s;
    TrimEndIgnoresTail(s, tail);
  }

  /** A text that starts and ends on a visible character is its own trimmed form,
      whatever white space surrounds it. */
  lemma TrimTight(lead: string, s: string, tail: string)
    requires Blank(lead) && Blank(tail)
    requires s != "" && !IsSpace(s[0]) && !IsSpace(s[|s| - 1])
    ensures Trim(lead + s + tail) == s
  {
    TrimSurrounded(lead, s, tail);
    assert LeadOf(s) == 0 && EndOf(s) == |s|;
  }

  /** Once a text's trimmed form starts with a marker that ends on a visible character,
      so does that of every extension. */
  lemma MarkerPersists(s: string, y: string, marker: string)
    requires marker != "" && !IsSpace(marker[|marker| - 1])
    requires marker <= Trim(s)
    ensures marker <= Trim(s + y)
  {
    TrimBlank(s);
    TrimStartExtends(s, y);
    var t, u := TrimStart(s), TrimStart(s + y);
    assert marker == t[..|marker|] == u[..|marker|];
    assert u[|marker| - 1] == marker[|marker| - 1];
    assert EndOf(u) >= |marker|;
  }

  // ---- lines --------------------------------------------------------------

  predicate NoNewline(s: string) {
    '\n' !in s
  }

  /** The complete lines of a text and the partial line after its last newline. */
  datatype Split = Split(lines: seq<string>, rest: string)

  function IndexOfNewline(s: string): (i: nat)
    ensures i <= |s| && NoNewline(s[..i])
    ensures i < |s| ==> s[i] == '\n'
  {
    if s == "" || s[0] == '\n' then 0
    else
      var i := 1 + IndexOfNewline(s[1..]);
      assert s[..i] == [s[0]] + s[1..][..i - 1];
      i
  }

  function SplitLines(s: string): Split
    decreases |s|
  {
    var i := IndexOfNewline(s);
    if i == |s| then Split([], s)
    else
      var tail := SplitLines(s[i + 1..]);
      Split([s[..i]] + tail.lines, tail.rest)
  }

  lemma IndexOfNewlineUnique(s: string, i: nat)
    requires i <= |s| && NoNewline(s[..i])
    requires i < |s| ==> s[i] == '\n'
    ensures IndexOfNewline(s) == i
  {
    var j := IndexOfNewline(s);
    assert forall k | 0 <= k < i :: s[k] == s[..i][k];
    assert forall k | 0 <= k < j :: s[k] == s[..j][k];
  }

  /** The text of complete lines; splitting it gives the lines back. */
  function JoinLines(lines: seq<string>): string {
    if lines == [] then "" else lines[0] + "\n" + JoinLines(lines[1..])
  }

  /** A text that arrives in chunks. */
  function Joined(chunks: seq<string>): string {
    if chunks == [] then "" else Joined(chunks[..|chunks| - 1]) + chunks[|chunks| - 1]
  }

  lemma SplitNone(s: string)
    requires NoNewline(s)
    ensures SplitLines(s) == Split([], s)
  {
    assert s[..|s|] == s;
    IndexOfNewlineUnique(s, |s|);
  }

  lemma SplitAt(line: string, tail: string)
    requires NoNewline(line)
    ensures SplitLines(line + "\n" + tail) == Split([line] + SplitLines(tail).lines, SplitLines(tail).rest)
  {
    var s := line + "\n" + tail;
    assert s[..|line|] == line && s[|line| + 1..] == tail;
    IndexOfNewlineUnique(s, |line|);
  }

  /** The first line of a text that has one. */
  lemma FirstLine(s: string) returns (line: string, tail: string)
    requires !NoNewline(s)
    ensures NoNewline(line) && s == line + "\n" + tail
  {
    var i := IndexOfNewline(s);
    assert s[..|s|] == s;
    line, tail := s[..i], s[i + 1..];
  }

  lemma Glue(a: string, b: string, c: string)
    ensures (a + "\n" + b) + c == a + "\n" + (b + c)
  {}

  /** Splitting a text that arrives in two parts: the rest of the first part is carried over. */
  lemma {:induction false} SplitConcat(a: string, b: string)
    ensures SplitLines(a + b).lines == SplitLines(a).lines + SplitLines(SplitLines(a).rest + b).lines
    ensures SplitLines(a + b).rest == SplitLines(SplitLines(a).rest + b).rest
    decreases |a|
  {
    if NoNewline(a) {
      SplitNone(a);
    } else {
      var line, tail := FirstLine(a);
      SplitConcat(tail, b);
      var first := SplitLines(tail);
      var second := SplitLines(first.rest + b);
      assert [line] + (first.lines + second.lines) == [line] + first.lines + second.lines;
      assert SplitLines(a) == Split([line] + first.lines, first.rest) by { SplitAt(line, tail); }
      assert SplitLines(a + b) == Split([line] + (first.lines + second.lines), second.rest) by {
        Glue(line, tail, b);
        SplitAt(line, tail + b);
      }
    }
  }

  /** Splitting joined lines gives the lines back. */
  lemma {:induction false} SplitOfJoin(lines: seq<string>, rest: string)
    requires forall i | 0 <= i < |lines| :: NoNewline(lines[i])
    requires NoNewline(rest)
    ensures SplitLines(JoinLines(lines) + rest) == Split(lines, rest)
    decreases |lines|
  {
    if lines == [] {
      assert JoinLines(lines) + rest == rest;
      SplitNone(rest);
    } else {
      Glue(lines[0], JoinLines(lines[1..]), rest);
      SplitAt(lines[0], JoinLines(lines[1..]) + rest);
      SplitOfJoin(lines[1..], rest);
      assert [lines[0]] + lines[1..] == lines;
    }
  }
}
