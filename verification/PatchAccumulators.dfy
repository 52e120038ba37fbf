/** The scanner that decides where one JSON patch ends: brace depth outside strings, kept
    character by character, plus the stack of closers still owed. */
module PatchAccumulators {
  import opened Text

  datatype Scan = Scan(depth: int, inString: bool, escapeNext: bool, sawOpen: bool, closers: string)

  const FRESH := Scan(0, false, false, false, "")

  function Step(s: Scan, c: char): Scan {
    if s.escapeNext then
      s.(escapeNext := false)
    else if s.inString then
      if c == '\\' then s.(escapeNext := true)
      else if c == '"' then s.(inString := false)
      else s
    else if c == '"' then
      s.(inString := true)
    else if c == '{' || c == '[' then
      s.(depth := s.depth + 1, sawOpen := true, closers := s.closers + [if c == '{' then '}' else ']'])
    else if c == '}' || c == ']' then
      s.(depth := s.depth - 1, closers := Popped(s.closers))
    else
      s
  }

  /** Popping an empty stack leaves it empty. */
  function Popped(stack: string): string {
    if stack == "" then "" else stack[..|stack| - 1]
  }

  function Run(s: Scan, text: string): Scan
    decreases text
  {
    if text == "" then s else Run(Step(s, text[0]), text[1..])
  }

  predicate IsComplete(s: Scan) {
    s.sawOpen && s.depth == 0 && !s.inString
  }

  predicate CanRepair(s: Scan) {
    s.depth == 1 && !s.inString && !s.escapeNext
  }

  predicate IsUnrecoverable(s: Scan) {
    s.depth < 0
  }

  function Reversed(s: string): string {
    if s == "" then "" else Reversed(s[1..]) + [s[0]]
  }

  function Repaired(text: string, s: Scan): string {
    TrimEnd(text) + Reversed(s.closers)
  }

  lemma {:induction false} RunConcat(s: Scan, a: string, b: string)
    ensures Run(s, a + b) == Run(Run(s, a), b)
    decreases |a|
  {
    if a == "" {
      assert a + b == b;
    } else {
      assert (a + b)[0] == a[0] && (a + b)[1..] == a[1..] + b;
      RunConcat(Step(s, a[0]), a[1..], b);
    }
  }

  lemma RunSnoc(s: Scan, a: string, c: char)
    ensures Run(s, a + [c]) == Step(Run(s, a), c)
  {
    RunConcat(s, a, [c]);
    assert [c][1..] == "";
  }

  // ---- depth against the stack of closers ---------------------------------

  /** The lowest depth reached anywhere in the text, the starting depth included. */
  function Lowest(s: Scan, text: string): int
    decreases text
  {
    if text == "" then s.depth
    else
      var rest := Lowest(Step(s, text[0]), text[1..]);
      if rest < s.depth then rest else s.depth
  }

  function Excursion(text: string): nat {
    var low := Lowest(FRESH, text);
    if low < 0 then -low else 0
  }

  lemma {:induction false} ClosersFrom(s: Scan, text: string)
    requires |s.closers| >= s.depth
    ensures |Run(s, text).closers| - Run(s, text).depth
         == if Lowest(s, text) < s.depth - |s.closers| then -Lowest(s, text) else |s.closers| - s.depth
    decreases |text|
  {
    if text != "" {
      ClosersFrom(Step(s, text[0]), text[1..]);
    }
  }

  /** Popping an empty stack is a no-op, so for every text the closers outnumber the depth by
      exactly the deepest dip below zero. */
  lemma ClosersTrackDepth(text: string)
    ensures |Run(FRESH, text).closers| == Run(FRESH, text).depth + Excursion(text)
  {
    ClosersFrom(FRESH, text);
  }

  // ---- the closers owed ---------------------------------------------------

  predicate OpensBracket(s: Scan, c: char) {
    !s.escapeNext && !s.inString && (c == '{' || c == '[')
  }

  /** The closers of the brackets that the text opens and does not close again, outermost first: a bracket
      stays open when the depth never comes back to what it was before it. */
  function Unclosed(s: Scan, text: string): string
    decreases text
  {
    if text == "" then ""
    else
      var next, rest := Step(s, text[0]), Unclosed(Step(s, text[0]), text[1..]);
      if OpensBracket(s, text[0]) && Lowest(next, text[1..]) > s.depth
      then [if text[0] == '{' then '}' else ']'] + rest
      else rest
  }

  lemma LowestIsLow(s: Scan, text: string)
    ensures Lowest(s, text) <= s.depth
  {}

  /** How far the text goes below the depth it starts at. */
  function Dip(s: Scan, text: string): nat {
    LowestIsLow(s, text);
    s.depth - Lowest(s, text)
  }

  /** What is left of a stack after so many have been taken from it. */
  function Left(stack: string, taken: nat): string {
    if taken >= |stack| then "" else stack[..|stack| - taken]
  }

  lemma {:induction false} ClosersAreOwedFrom(s: Scan, text: string)
    ensures Run(s, text).closers == Left(s.closers, Dip(s, text)) + Unclosed(s, text)
    decreases |text|
  {
    if text == "" {
      assert Left(s.closers, 0) == s.closers;
    } else {
      var next := Step(s, text[0]);
      ClosersAreOwedFrom(next, text[1..]);
      OwedStep(s, text[0], Lowest(next, text[1..]), Unclosed(next, text[1..]));
    }
  }

  /** One character before a text that dips to `low` and leaves `rest` unclosed. */
  lemma OwedStep(s: Scan, c: char, low: int, rest: string)
    requires low <= Step(s, c).depth
    ensures var next := Step(s, c);
            var kept := Left(next.closers, next.depth - low);
            var lowest := if low < s.depth then low else s.depth;
            kept + rest
            == Left(s.closers, s.depth - lowest)
             + if OpensBracket(s, c) && low > s.depth then [if c == '{' then '}' else ']'] + rest else rest
  {
    var next := Step(s, c);
    if OpensBracket(s, c) {
      var closer := if c == '{' then '}' else ']';
      assert next.closers == s.closers + [closer];
      if low > s.depth {
        assert Left(next.closers, 0) == s.closers + [closer] && Left(s.closers, 0) == s.closers;
        assert s.closers + [closer] + rest == s.closers + ([closer] + rest);
      } else {
        assert Left(next.closers, next.depth - low) == Left(s.closers, s.depth - low);
      }
    } else if next.depth < s.depth {
      assert Left(Popped(s.closers), next.depth - low) == Left(s.closers, s.depth - low);
    }
  }

  /** For every text, what the accumulator owes are the matching closers of exactly the brackets that are
      still open, and the repair appends them innermost first. */
  lemma ClosersAreOwed(text: string)
    ensures Run(FRESH, text).closers == Unclosed(FRESH, text)
    ensures Repaired(text, Run(FRESH, text)) == TrimEnd(text) + Reversed(Unclosed(FRESH, text))
  {
    ClosersAreOwedFrom(FRESH, text);
    assert Left("", Dip(FRESH, text)) == "";
    assert "" + Unclosed(FRESH, text) == Unclosed(FRESH, text);
  }

  // ---- rising above zero --------------------------------------------------

  /** The highest depth reached anywhere in the text, the starting depth included. */
  function Highest(s: Scan, text: string): int
    decreases text
  {
    if text == "" then s.depth
    else
      var rest := Highest(Step(s, text[0]), text[1..]);
      if rest > s.depth then rest else s.depth
  }

  /** Somewhere in the text some bracket is open. */
  predicate Rises(text: string) {
    Highest(FRESH, text) > 0
  }

  lemma {:induction false} HighestIsReached(s: Scan, text: string) returns (k: nat)
    ensures k <= |text| && Run(s, text[..k]).depth == Highest(s, text)
    decreases |text|
  {
    if text == "" || Highest(s, text) == s.depth {
      k := 0;
    } else {
      var j := HighestIsReached(Step(s, text[0]), text[1..]);
      k := j + 1;
      assert text[..k][1..] == text[1..][..j];
    }
  }

  lemma {:induction false} HighestConcat(s: Scan, a: string, b: string)
    ensures var h, later := Highest(s, a), Highest(Run(s, a), b);
            Highest(s, a + b) == if later > h then later else h
    decreases |a|
  {
    if a == "" {
      assert a + b == b;
    } else {
      assert (a + b)[0] == a[0] && (a + b)[1..] == a[1..] + b;
      HighestConcat(Step(s, a[0]), a[1..], b);
    }
    EndBelowHighest(s, a);
  }

  lemma {:induction false} EndBelowHighest(s: Scan, text: string)
    ensures Run(s, text).depth <= Highest(s, text)
    decreases text
  {
    if text != "" {
      EndBelowHighest(Step(s, text[0]), text[1..]);
    }
  }

  /** A text rises exactly when the scan of one of its prefixes has positive depth. */
  lemma RisesAtSomePrefix(text: string)
    ensures Rises(text) <==> exists k :: 0 <= k <= |text| && Run(FRESH, text[..k]).depth > 0
  {
    var k := HighestIsReached(FRESH, text);
    forall j | 0 <= j <= |text|
      ensures Run(FRESH, text[..j]).depth <= Highest(FRESH, text)
    {
      EndBelowHighest(FRESH, text[..j]);
      HighestConcat(FRESH, text[..j], text[j..]);
      assert text[..j] + text[j..] == text;
    }
  }

  lemma {:induction false} EscapesInStrings(s: Scan, t: string)
    requires s.escapeNext ==> s.inString
    ensures Run(s, t).escapeNext ==> Run(s, t).inString
    decreases t
  {
    if t != "" {
      EscapesInStrings(Step(s, t[0]), t[1..]);
    }
  }

  function Braces(n: nat): string {
    if n == 0 then "" else "{" + Braces(n - 1)
  }

  lemma {:induction false} BracesClimb(s: Scan, n: nat)
    requires !s.inString && !s.escapeNext
    ensures var t := Run(s, Braces(n));
            && t.depth == s.depth + n && !t.inString && (n > 0 ==> t.sawOpen)
            && Highest(s, Braces(n)) == s.depth + n
    decreases n
  {
    if n > 0 {
      assert Braces(n)[1..] == Braces(n - 1);
      BracesClimb(Step(s, '{'), n - 1);
      if n == 1 {
        assert Braces(0) == "";
      } else {
        assert Run(Step(s, '{'), Braces(n - 1)).sawOpen;
      }
    }
  }

  /** What ends a string that a text may have left open. */
  function Ending(s: Scan): string {
    (if s.escapeNext then "n" else "") + (if s.inString then "\"" else "")
  }

  lemma EndingLeavesStrings(s: Scan)
    requires s.escapeNext ==> s.inString
    ensures Run(s, Ending(s)) == s.(inString := false, escapeNext := false)
    ensures Highest(s, Ending(s)) == s.depth
  {
    var e := Ending(s);
    if s.escapeNext {
      assert e == ['n', '"'] && e[1..] == ['"'] && ['"'][1..] == "";
    } else if s.inString {
      assert e == ['"'] && e[1..] == "";
    }
  }

  lemma Closes(s: Scan)
    requires s.depth <= 0 && !s.inString && !s.escapeNext
    ensures Run(s, "}") == Step(s, '}') && Step(s, '}').depth == s.depth - 1 && Highest(s, "}") == s.depth
    ensures !Step(s, '}').inString && !Step(s, '}').escapeNext
  {
    assert "}"[0] == '}' && "}"[1..] == "";
  }

  /** A text that goes on from `a` with `b`, neither of which rises above zero, completes as `b` does. */
  lemma LowConcat(s: Scan, a: string, b: string)
    requires Highest(s, a) <= 0 && Highest(Run(s, a), b) <= 0 && IsComplete(Run(Run(s, a), b))
    ensures IsComplete(Run(s, a + b)) && Highest(s, a + b) <= 0
  {
    RunConcat(s, a, b);
    HighestConcat(s, a, b);
  }

  lemma ClimbCompletes(s: Scan) returns (climb: string)
    requires !s.inString && !s.escapeNext && s.depth < 0
    ensures IsComplete(Run(s, climb)) && Highest(s, climb) <= 0
  {
    climb := Braces(-s.depth);
    BracesClimb(s, -s.depth);
  }

  lemma BelowAndUp(s: Scan, climb: string)
    requires s.depth <= 0 && !s.inString && !s.escapeNext
    requires IsComplete(Run(Step(s, '}'), climb)) && Highest(Step(s, '}'), climb) <= 0
    ensures IsComplete(Run(s, "}" + climb)) && Highest(s, "}" + climb) <= 0
  {
    Closes(s);
    LowConcat(s, "}", climb);
  }

  lemma DipCompletes(s: Scan) returns (close: string)
    requires s.depth <= 0 && !s.inString && !s.escapeNext
    ensures IsComplete(Run(s, close)) && Highest(s, close) <= 0
  {
    var climb := ClimbCompletes(Step(s, '}'));
    BelowAndUp(s, climb);
    close := "}" + climb;
  }

  lemma AfterEnding(s: Scan, close: string)
    requires s.depth <= 0 && (s.escapeNext ==> s.inString)
    requires var ended := s.(inString := false, escapeNext := false);
             IsComplete(Run(ended, close)) && Highest(ended, close) <= 0
    ensures IsComplete(Run(s, Ending(s) + close)) && Highest(s, Ending(s) + close) <= 0
  {
    EndingLeavesStrings(s);
    LowConcat(s, Ending(s), close);
  }

  /** From depth zero or below some text completes the scan without ever rising above zero. */
  lemma LowCompletion(s: Scan) returns (more: string)
    requires s.depth <= 0 && (s.escapeNext ==> s.inString)
    ensures IsComplete(Run(s, more)) && Highest(s, more) <= 0
  {
    var close := DipCompletes(s.(inString := false, escapeNext := false));
    AfterEnding(s, close);
    more := Ending(s) + close;
  }

  /** Completion is sure to come after a positive depth exactly from the moment the depth is positive:
      until then the accumulator could still complete, on a stray closing bracket, from below. */
  lemma RiseIsDecided(text: string)
    ensures Rises(text) <==> forall more :: IsComplete(Run(FRESH, text + more)) ==> Rises(text + more)
  {
    if Rises(text) {
      forall more
        ensures Rises(text + more)
      {
        HighestConcat(FRESH, text, more);
      }
    } else {
      var s := Run(FRESH, text);
      EndBelowHighest(FRESH, text);
      EscapesInStrings(FRESH, text);
      var more := LowCompletion(s);
      RunConcat(FRESH, text, more);
      HighestConcat(FRESH, text, more);
      assert IsComplete(Run(FRESH, text + more)) && !Rises(text + more);
    }
  }

  /** Seen from the first character: every completion of the text rises exactly when that character
      opens a bracket. */
  lemma FirstCharacterDecidesRise(c: char)
    ensures (forall more :: IsComplete(Run(FRESH, [c] + more)) ==> Rises([c] + more)) <==> c == '{' || c == '['
  {
    RiseIsDecided([c]);
    assert [c][1..] == "";
    assert Highest(FRESH, [c]) == if Step(FRESH, c).depth > 0 then Step(FRESH, c).depth else 0;
  }

  lemma {:induction false} SpacesKeepScan(s: Scan, t: string)
    requires !s.inString && !s.escapeNext && Blank(t)
    ensures Run(s, t) == s && Highest(s, t) == s.depth
    decreases t
  {
    if t != "" {
      assert IsSpace(t[0]);
      assert forall i | 0 <= i < |t[1..]| :: t[1..][i] == t[i + 1];
      SpacesKeepScan(s, t[1..]);
    }
  }

  /** The first visible character opens an object. */
  predicate StartsOpen(text: string) {
    "{" <= Trim(text)
  }

  /** So a text that starts open has risen, whatever follows. */
  lemma StartsOpenRises(text: string)
    requires StartsOpen(text)
    ensures Rises(text)
  {
    var n := LeadOf(text);
    var lead, body := text[..n], text[n..];
    assert body == TrimStart(text);
    assert body[0] == Trim(text)[0] == '{';
    assert text == lead + body;
    SpacesKeepScan(FRESH, lead);
    HighestConcat(FRESH, lead, body);
    EndBelowHighest(Step(FRESH, '{'), body[1..]);
    HighestStarts(Step(FRESH, '{'), body[1..]);
  }

  lemma HighestStarts(s: Scan, text: string)
    ensures Highest(s, text) >= s.depth
  {}

  /** The text never falls below depth `d`. */
  predicate StaysAbove(s: Scan, text: string, d: int)
    decreases text
  {
    s.depth >= d && (text == "" || StaysAbove(Step(s, text[0]), text[1..], d))
  }

  lemma {:induction false} StaysAboveConcat(s: Scan, a: string, b: string, d: int)
    requires StaysAbove(s, a, d) && StaysAbove(Run(s, a), b, d)
    ensures StaysAbove(s, a + b, d)
    decreases |a|
  {
    if a == "" {
      assert a + b == b;
    } else {
      assert (a + b)[0] == a[0] && (a + b)[1..] == a[1..] + b;
      StaysAboveConcat(Step(s, a[0]), a[1..], b, d);
    }
  }

  lemma {:induction false} StaysAbovePrefix(s: Scan, text: string, d: int, k: nat)
    requires StaysAbove(s, text, d) && k <= |text|
    ensures Run(s, text[..k]).depth >= d
    decreases k
  {
    if k > 0 {
      assert text[..k][1..] == text[1..][..k - 1];
      StaysAbovePrefix(Step(s, text[0]), text[1..], d, k - 1);
    }
  }

  // ---- the accumulator ----------------------------------------------------

  /** What an accumulator holds: the text fed since the last reset and its scan. */
  datatype Held = Held(text: string, scan: Scan)

  const NOTHING := Held("", FRESH)

  function Fed(h: Held, chunk: string): Held {
    Held(h.text + chunk, Run(h.scan, chunk))
  }

  predicate IsEmpty(h: Held) {
    Trim(h.text) == ""
  }

  class PatchAccumulator {
    var text: string
    var depth: int
    var inString: bool
    var escapeNext: bool
    var sawOpen: bool
    var closers: string

    function Contents(): Held
      reads this
    {
      Held(text, Scan(depth, inString, escapeNext, sawOpen, closers))
    }

    constructor ()
      ensures Contents() == NOTHING
    {
      text, depth, inString, escapeNext, sawOpen, closers := "", 0, false, false, false, "";
    }

    /** Scans only the newly appended characters, from the state the earlier ones left. */
    method Feed(chunk: string)
      modifies this
      ensures Contents() == Fed(old(Contents()), chunk)
    {
      ghost var before := Contents();
      text := text + chunk;
      for i := 0 to |chunk|
        invariant text == before.text + chunk
        invariant Contents().scan == Run(before.scan, chunk[..i])
      {
        assert chunk[..i + 1] == chunk[..i] + [chunk[i]];
        RunSnoc(before.scan, chunk[..i], chunk[i]);
        var ch := chunk[i];
        if escapeNext {
          escapeNext := false;
          continue;
        }
        if inString {
          if ch == '\\' {
            escapeNext := true;
          } else if ch == '"' {
            inString := false;
          }
          continue;
        }
        if ch == '"' {
          inString := true;
        } else if ch == '{' || ch == '[' {
          depth := depth + 1;
          sawOpen := true;
          closers := closers + [if ch == '{' then '}' else ']'];
        } else if ch == '}' || ch == ']' {
          depth := depth - 1;
          closers := Popped(closers);
        }
      }
      assert chunk[..|chunk|] == chunk;
    }

    /** Appends the owed closers innermost first. */
    method RepairedText() returns (r: string)
      ensures r == Repaired(text, Contents().scan)
    {
      r := "";
      for i := 0 to |closers|
        invariant r == Reversed(closers[..i])
      {
        assert closers[..i + 1] == closers[..i] + [closers[i]];
        ReversedSnoc(closers[..i], closers[i]);
        r := [closers[i]] + r;
      }
      assert closers[..|closers|] == closers;
      r := TrimEnd(text) + r;
    }

    method Reset()
      modifies this
      ensures Contents() == NOTHING
    {
      text, depth, inString, escapeNext, sawOpen, closers := "", 0, false, false, false, "";
    }
  }

  lemma {:induction false} ReversedSnoc(s: string, c: char)
    ensures Reversed(s + [c]) == [c] + Reversed(s)
  {
    if s != "" {
      assert (s + [c])[0] == s[0] && (s + [c])[1..] == s[1..] + [c];
      ReversedSnoc(s[1..], c);
      assert [c] + Reversed(s[1..]) + [s[0]] == [c] + (Reversed(s[1..]) + [s[0]]);
    }
  }
}
