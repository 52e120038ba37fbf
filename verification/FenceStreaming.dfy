/** Segments of a growing message: the chunks do not matter, what was shown stays shown, and no
    prose is lost or invented. */
module FenceStreaming {
  import opened Collections
  import opened Text
  import opened PatchAccumulators
  import opened FenceSpec
  import opened FenceInvariant

  // ---- chunk invariance ---------------------------------------------------

  lemma {:induction false} LinesConcat<S, P>(core: Core<S, P>, st: State<S>, a: seq<string>, b: seq<string>)
    ensures ProcessLines(core, st, a + b) == ProcessLines(core, ProcessLines(core, st, a), b)
    decreases |a|
  {
    if a == [] {
      assert a + b == b;
    } else {
      assert (a + b)[0] == a[0] && (a + b)[1..] == a[1..] + b;
      LinesConcat(core, ProcessLine(core, st, a[0], true), a[1..], b);
    }
  }

  lemma PushConcat<S, P>(core: Core<S, P>, p: Parser<S>, a: string, b: string)
    ensures Push(core, Push(core, p, a), b) == Push(core, p, a + b)
  {
    var first := SplitLines(p.buffer + a);
    assert p.buffer + (a + b) == p.buffer + a + b;
    SplitConcat(p.buffer + a, b);
    LinesConcat(core, p.state, first.lines, SplitLines(first.rest + b).lines);
  }

  function PushAll<S, P>(core: Core<S, P>, p: Parser<S>, chunks: seq<string>): Parser<S>
    decreases |chunks|
  {
    if chunks == [] then p
    else Push(core, PushAll(core, p, chunks[..|chunks| - 1]), chunks[|chunks| - 1])
  }

  lemma {:induction false} PushAllJoins<S, P>(core: Core<S, P>, p: Parser<S>, chunks: seq<string>)
    requires NoNewline(p.buffer)
    ensures PushAll(core, p, chunks) == Push(core, p, Joined(chunks))
    decreases |chunks|
  {
    if chunks == [] {
      assert p.buffer + "" == p.buffer;
      SplitNone(p.buffer);
    } else {
      var n := |chunks| - 1;
      PushAllJoins(core, p, chunks[..n]);
      PushConcat(core, p, Joined(chunks[..n]), chunks[n]);
    }
  }

  lemma {:induction false} RestHasNoNewline(s: string)
    ensures NoNewline(SplitLines(s).rest)
    decreases |s|
  {
    if NoNewline(s) {
      SplitNone(s);
    } else {
      var line, tail := FirstLine(s);
      SplitAt(line, tail);
      RestHasNoNewline(tail);
    }
  }

  /** However a message is cut into chunks, even inside a fence marker, the segments and the
      reported events are those of the whole message. */
  lemma ChunksDoNotMatter<S, P>(core: Core<S, P>, chunks: seq<string>, final: bool)
    ensures Flush(core, PushAll(core, Initial(), chunks), final).state == ParseMessage(core, Joined(chunks), final)
  {
    PushAllJoins(core, Initial(), chunks);
  }

  // ---- streaming stability ------------------------------------------------

  ghost predicate SameUpTo<S>(a: seq<Segment<S>>, b: seq<Segment<S>>, n: int) {
    n <= |a| && n <= |b| && forall i | 0 <= i < n :: b[i] == a[i]
  }

  /** The next line of a longer message starts with what is now the partial line. */
  lemma NextLine<S, P>(core: Core<S, P>, st: State<S>, rest: string, more: string, final: bool)
    returns (line: string, hadNewline: bool)
    requires WellFormed(st) && rest != "" && NoNewline(rest)
    ensures rest <= line
    ensures var next := ProcessLine(core, st, line, hadNewline);
            var done := Flush(core, Push(core, Parser(st, rest), more), final).state;
            && WellFormed(next) && Keeps(st, next)
            && |next.segments| <= |done.segments|
            && SameUpTo(next.segments, done.segments, Frozen(next))
  {
    var text := rest + more;
    var split := SplitLines(text);
    var p := Push(core, Parser(st, rest), more);
    if NoNewline(text) {
      SplitNone(text);
      line, hadNewline := text, false;
      LineKeeps(core, st, line, hadNewline);
      SettleKeeps(core, ProcessLine(core, st, line, hadNewline), final);
    } else {
      var tail;
      line, tail := FirstLine(text);
      hadNewline := true;
      SplitAt(line, tail);
      PrefixOfLine(rest, more, line, tail);
      LineKeeps(core, st, line, true);
      var next := ProcessLine(core, st, line, true);
      assert split.lines[1..] == SplitLines(tail).lines;
      LinesKeep(core, next, split.lines[1..]);
      FlushKeeps(core, p, final);
      var done := Flush(core, p, final).state;
      assert SameUpTo(next.segments, done.segments, Frozen(next));
    }
  }

  lemma PrefixOfLine(rest: string, more: string, line: string, tail: string)
    requires NoNewline(rest) && rest + more == line + "\n" + tail
    ensures rest <= line
  {
    var t := rest + more;
    assert t[|line|] == '\n';
    assert forall i | 0 <= i < |rest| :: t[i] == rest[i];
    assert forall i | 0 <= i < |line| :: t[i] == line[i];
  }

  lemma FlushKeeps<S, P>(core: Core<S, P>, p: Parser<S>, final: bool)
    requires WellFormed(p.state)
    ensures var done := Flush(core, p, final).state;
            |p.state.segments| <= |done.segments| && SameUpTo(p.state.segments, done.segments, Frozen(p.state))
  {
    var st := if p.buffer == "" then p.state else ProcessLine(core, p.state, p.buffer, false);
    LineKeeps(core, p.state, p.buffer, false);
    SettleKeeps(core, st, final);
  }

  /** Continuing from any well formed point of a message. */
  lemma StableFrom<S, P>(core: Core<S, P>, p: Parser<S>, more: string, final: bool, laterFinal: bool)
    requires WellFormed(p.state) && NoNewline(p.buffer)
    ensures var now := Flush(core, p, final).state.segments;
            var later := Flush(core, Push(core, p, more), laterFinal).state.segments;
            |now| <= |later| && SameUpTo(now, later, |now| - 1)
  {
    var st := p.state;
    FlushKeeps(core, p, final);
    if p.buffer == "" {
      SettleKeeps(core, st, final);
      LinesKeep(core, st, SplitLines(p.buffer + more).lines);
      FlushKeeps(core, Push(core, p, more), laterFinal);
    } else {
      var shown := ProcessLine(core, st, p.buffer, false);
      LineKeeps(core, st, p.buffer, false);
      SettleKeeps(core, shown, final);
      var line, hadNewline := NextLine(core, st, p.buffer, more, laterFinal);
      PartialLineAgrees(core, st, p.buffer, line, hadNewline);
    }
  }

  /** The partial line shown at the end of the message opens no more segments than the line it
      grows into, and changes no segment that line leaves alone. */
  lemma PartialLineAgrees<S, P>(core: Core<S, P>, st: State<S>, partial: string, line: string, hadNewline: bool)
    requires WellFormed(st) && partial != "" && partial <= line
    ensures var shown := ProcessLine(core, st, partial, false);
            var next := ProcessLine(core, st, line, hadNewline);
            && |shown.segments| <= |next.segments| && |shown.segments| - 1 <= Frozen(next)
            && SameUpTo(shown.segments, next.segments, |shown.segments| - 1)
  {
    if st.inFence {
      LineKeeps(core, st, partial, false);
      LineKeeps(core, st, line, hadNewline);
      InsideFenceSize(core, st, partial, false);
    } else {
      if OpensFence(partial) {
        MarkerPersists(partial, line[|partial|..], SPEC_FENCE_OPEN);
        assert partial + line[|partial|..] == line;
      }
      OutsideFenceAgrees(core, st, partial, line, hadNewline);
    }
  }

  lemma OutsideFenceAgrees<S, P>(core: Core<S, P>, st: State<S>, partial: string, line: string, hadNewline: bool)
    requires WellFormed(st) && !st.inFence && partial != "" && line != ""
    requires OpensFence(partial) ==> OpensFence(line)
    ensures var shown := ProcessLine(core, st, partial, false);
            var next := ProcessLine(core, st, line, hadNewline);
            && |shown.segments| <= |next.segments| && |shown.segments| - 1 <= Frozen(next)
            && SameUpTo(shown.segments, next.segments, |shown.segments| - 1)
  {
    LineKeeps(core, st, partial, false);
    LineKeeps(core, st, line, hadNewline);
    OutsideFenceSize(core, st, partial, false);
    OutsideFenceSize(core, st, line, hadNewline);
  }

  lemma InsideFenceSize<S, P>(core: Core<S, P>, st: State<S>, line: string, hadNewline: bool)
    requires WellFormed(st) && st.inFence
    ensures |ProcessLine(core, st, line, hadNewline).segments| == |st.segments|
  {
    GiveUpStays(core, st, ClosedMidPatch);
    PatchLineStays(core, st, line, hadNewline);
  }

  /** Outside a fence a line adds a segment unless it continues the last prose run. */
  lemma OutsideFenceSize<S, P>(core: Core<S, P>, st: State<S>, line: string, hadNewline: bool)
    requires WellFormed(st) && !st.inFence && line != ""
    ensures var next := ProcessLine(core, st, line, hadNewline);
            if OpensFence(line) || Frozen(st) == |st.segments| then |next.segments| == |st.segments| + 1
            else |next.segments| == |st.segments|
    ensures var next := ProcessLine(core, st, line, hadNewline);
            OpensFence(line) ==> SameUpTo(st.segments, next.segments, |st.segments|) && Frozen(next) == |st.segments|
  {}

  /** For every message and every extension of it, all segments but the last stay exactly as they
      were, and there are never fewer of them. */
  lemma StreamingStability<S, P>(core: Core<S, P>, message: string, more: string, final: bool, laterFinal: bool)
    ensures var now := ParseMessage(core, message, final).segments;
            var later := ParseMessage(core, message + more, laterFinal).segments;
            |now| <= |later| && forall i | 0 <= i < |now| - 1 :: later[i] == now[i]
  {
    var start: Parser<S> := Initial();
    var p := Push(core, start, message);
    assert "" + message == message;
    LinesKeep(core, start.state, SplitLines(message).lines);
    RestHasNoNewline(message);
    PushConcat(core, start, message, more);
    StableFrom(core, p, more, final, laterFinal);
  }

  // ---- prose conservation -------------------------------------------------

  /** Whether the parser is inside a fence after a line: the markers alone decide. */
  predicate FenceAfter(inFence: bool, line: string) {
    if inFence then !ClosesFence(line) else OpensFence(line)
  }

  predicate FenceAfterAll(inFence: bool, lines: seq<string>)
    decreases lines
  {
    if lines == [] then inFence else FenceAfterAll(FenceAfter(inFence, lines[0]), lines[1..])
  }

  /** What one line contributes to the prose. */
  function OwnText(inFence: bool, line: string, hadNewline: bool): string {
    if inFence || OpensFence(line) then "" else Physical(line, hadNewline)
  }

  /** The complete lines that stand outside every fence. */
  function OutsideText(inFence: bool, lines: seq<string>): string
    decreases lines
  {
    if lines == [] then ""
    else OwnText(inFence, lines[0], true) + OutsideText(FenceAfter(inFence, lines[0]), lines[1..])
  }

  /** Everything of a message that stands outside its fences. */
  function Prose(message: string): string {
    var split := SplitLines(message);
    OutsideText(false, split.lines) + OwnText(FenceAfterAll(false, split.lines), split.rest, false)
  }

  function TextOf<S>(segments: seq<Segment<S>>): string {
    if segments == [] then ""
    else
      var last := segments[|segments| - 1];
      TextOf(segments[..|segments| - 1]) + (if last.TextSegment? then last.text else "")
  }

  lemma {:induction false} SpecsCarryNoText<S>(a: seq<Segment<S>>, b: seq<Segment<S>>)
    requires |a| == |b|
    requires forall i | 0 <= i < |a| :: b[i] == a[i] || (a[i].SpecSegment? && b[i].SpecSegment?)
    ensures TextOf(b) == TextOf(a)
    decreases |a|
  {
    if a != [] {
      SpecsCarryNoText(a[..|a| - 1], b[..|b| - 1]);
    }
  }

  lemma AppendedText<S>(st: State<S>, text: string)
    ensures TextOf(AppendText(st, text).segments) == TextOf(st.segments) + text
  {
    var n := |st.segments|;
    if n > 0 && st.segments[n - 1].TextSegment? {
      var next := AppendText(st, text).segments;
      assert next[..n - 1] == st.segments[..n - 1];
    } else {
      assert (st.segments + [TextSegment(text)])[..n] == st.segments;
    }
  }

  /** One line adds its own text to the prose exactly when it stands outside every fence. */
  lemma LineProse<S, P>(core: Core<S, P>, st: State<S>, line: string, hadNewline: bool)
    requires WellFormed(st)
    ensures var next := ProcessLine(core, st, line, hadNewline);
            && next.inFence == FenceAfter(st.inFence, line)
            && TextOf(next.segments) == TextOf(st.segments)
                 + OwnText(st.inFence, line, hadNewline)
  {
    if st.inFence {
      InsideFenceProse(core, st, line, hadNewline);
      assert TextOf(st.segments) + "" == TextOf(st.segments);
    } else if OpensFence(line) {
      OpenedText(core, st);
    } else {
      AppendedText(st, Physical(line, hadNewline));
    }
  }

  lemma OpenedText<S, P>(core: Core<S, P>, st: State<S>)
    ensures TextOf(OpenSpec(core, st).segments) == TextOf(st.segments) + ""
  {
    assert OpenSpec(core, st).segments[..|st.segments|] == st.segments;
  }

  lemma InsideFenceProse<S, P>(core: Core<S, P>, st: State<S>, line: string, hadNewline: bool)
    requires WellFormed(st) && st.inFence
    ensures var next := ProcessLine(core, st, line, hadNewline);
            next.inFence == !ClosesFence(line) && TextOf(next.segments) == TextOf(st.segments)
  {
    if ClosesFence(line) {
      GiveUpStays(core, st, ClosedMidPatch);
      SpecsCarryNoText(st.segments, CloseSpec(core, st).segments);
    } else {
      PatchLineStays(core, st, line, hadNewline);
      SpecsCarryNoText(st.segments, ApplyPatchLine(core, st, line, hadNewline).segments);
    }
  }

  lemma RestProse<S, P>(core: Core<S, P>, st: State<S>, rest: string, final: bool)
    requires WellFormed(st)
    ensures TextOf(Flush(core, Parser(st, rest), final).state.segments)
         == TextOf(st.segments) + OwnText(st.inFence, rest, false)
  {
    var last := if rest == "" then st else ProcessLine(core, st, rest, false);
    LineKeeps(core, st, rest, false);
    LineProse(core, st, rest, false);
    var done := Flush(core, Parser(st, rest), final).state;
    SettleKeeps(core, last, final);
    if last.inFence {
      GiveUpStays(core, last, Unterminated);
    }
    SpecsCarryNoText(last.segments, done.segments);
    assert rest == "" ==> TextOf(st.segments) + rest == TextOf(st.segments);
  }

  lemma {:induction false} LinesProse<S, P>(core: Core<S, P>, st: State<S>, lines: seq<string>)
    requires WellFormed(st)
    ensures var later := ProcessLines(core, st, lines);
            && WellFormed(later) && later.inFence == FenceAfterAll(st.inFence, lines)
            && TextOf(later.segments) == TextOf(st.segments) + OutsideText(st.inFence, lines)
    decreases |lines|
  {
    if lines == [] {
      assert TextOf(st.segments) + "" == TextOf(st.segments);
    } else {
      LineKeeps(core, st, lines[0], true);
      LineProse(core, st, lines[0], true);
      LinesProse(core, ProcessLine(core, st, lines[0], true), lines[1..]);
      ConcatAssociative(TextOf(st.segments), OwnText(st.inFence, lines[0], true),
                        OutsideText(FenceAfter(st.inFence, lines[0]), lines[1..]));
    }
  }

  /** The text segments joined are exactly the lines outside fences: no prose is lost, none of a
      block leaks into it. */
  lemma ProseConserved<S, P>(core: Core<S, P>, message: string, final: bool)
    ensures TextOf(ParseMessage(core, message, final).segments) == Prose(message)
  {
    var start: Parser<S> := Initial();
    var split := SplitLines(message);
    var st := ProcessLines(core, start.state, split.lines);
    assert Push(core, start, message) == Parser(st, split.rest) by {
      assert "" + message == message;
    }
    LinesProse(core, start.state, split.lines);
    RestProse(core, st, split.rest, final);
    assert TextOf(start.state.segments) == "";
    assert "" + OutsideText(false, split.lines) == OutsideText(false, split.lines);
  }
}
