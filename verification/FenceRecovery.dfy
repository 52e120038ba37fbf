/** Blocks whose patch lines lost their final brace: nothing of the block is lost. */
module FenceRecovery {
  import opened Wrappers
  import opened Text
  import opened PatchAccumulators
  import opened JsonText
  import opened FenceSpec
  import opened FenceInvariant

  /** A patch object on one line, with or without its final brace, between white space such as an
      indentation or a carriage return. */
  datatype PatchLine = PatchLine(lead: string, open: string, members: Members, tail: string, cut: bool) {
    function Patch(): Json { Object(open, members) }

    function Visible(): string {
      if cut then Body(Patch()) else Print(Patch())
    }

    function Written(): string {
      lead + Visible() + tail
    }
  }

  predicate SingleLinePatch(v: Json) {
    v.Object? && Valid(v) && NoNewline(Print(v)) && OpPatchLine(Print(v))
  }

  predicate SpaceInLine(w: string) {
    IsWs(w) && NoNewline(w)
  }

  predicate NeatLine(line: PatchLine) {
    SingleLinePatch(line.Patch()) && SpaceInLine(line.lead) && SpaceInLine(line.tail)
  }

  /** Besides its shape: the library reads the object the same whether or not space precedes it or its
      final brace. */
  ghost predicate GoodLine<S, P>(core: Core<S, P>, line: PatchLine) {
    && NeatLine(line)
    && core.parse(line.lead + Print(Tight(line.Patch()))) == core.parse(Print(line.Patch()))
  }

  // ---- what an intact block amounts to ------------------------------------

  /** A block after one more patch text: unreadable texts change nothing. */
  function Applied<S, P>(core: Core<S, P>, block: Segment<S>, raw: string): (r: Segment<S>)
    requires block.SpecSegment?
    ensures r.SpecSegment? && r.closed == block.closed
  {
    match core.parse(raw)
    case None => block
    case Some(patch) => block.(spec := core.apply(block.spec, patch), patchCount := block.patchCount + 1)
  }

  function AppliedAll<S, P>(core: Core<S, P>, block: Segment<S>, lines: seq<PatchLine>): (r: Segment<S>)
    requires block.SpecSegment?
    ensures r.SpecSegment? && r.closed == block.closed
    decreases lines
  {
    if lines == [] then block else AppliedAll(core, Applied(core, block, Print(lines[0].Patch())), lines[1..])
  }

  lemma {:induction false} AppliedSnoc<S, P>(core: Core<S, P>, block: Segment<S>, lines: seq<PatchLine>,
                                             line: PatchLine)
    requires block.SpecSegment?
    ensures AppliedAll(core, block, lines + [line])
         == Applied(core, AppliedAll(core, block, lines), Print(line.Patch()))
    decreases |lines|
  {
    if lines == [] {
      assert ([line])[1..] == [];
    } else {
      assert (lines + [line])[0] == lines[0] && (lines + [line])[1..] == lines[1..] + [line];
      AppliedSnoc(core, Applied(core, block, Print(lines[0].Patch())), lines[1..], line);
    }
  }

  // ---- the op marker ------------------------------------------------------

  /** The key `"op"` starts at `key` and its colon stands at `colon`. */
  predicate MarkerAt(t: string, key: nat, colon: nat) {
    && 1 <= key && key + 4 <= colon < |t|
    && t[0] == '{' && t[key..key + 4] == "\"op\"" && t[colon] == ':'
    && SpaceRun(t, 1, key) && SpaceRun(t, key + 4, colon)
  }

  lemma LeadIs(t: string, i: nat, j: nat)
    requires i <= j < |t| && SpaceRun(t, i, j) && !IsSpace(t[j])
    ensures LeadOf(t[i..]) == j - i
  {
    var rest := t[i..];
    assert rest[j - i] == t[j];
    assert forall k | 0 <= k < j - i :: rest[k] == t[i + k];
  }

  lemma LeadRun(t: string, i: nat)
    requires i <= |t|
    ensures i + LeadOf(t[i..]) <= |t| && SpaceRun(t, i, i + LeadOf(t[i..]))
  {
    assert forall k | i <= k < i + LeadOf(t[i..]) :: t[k] == t[i..][k - i];
  }

  lemma OpMarkerAt(t: string, key: nat, colon: nat)
    requires MarkerAt(t, key, colon)
    ensures OpPatchLine(t)
  {
    assert t[key] == t[key..key + 4][0] == '"';
    LeadIs(t, 1, key);
    LeadIs(t, key + 4, colon);
  }

  lemma OpMarkerFound(t: string) returns (key: nat, colon: nat)
    requires OpPatchLine(t)
    ensures MarkerAt(t, key, colon)
  {
    key := 1 + LeadOf(t[1..]);
    colon := key + 4 + LeadOf(t[key + 4..]);
    LeadRun(t, 1);
    LeadRun(t, key + 4);
  }

  /** Texts that agree up to the colon agree on the marker. */
  lemma MarkerShared(t: string, u: string, key: nat, colon: nat)
    requires MarkerAt(t, key, colon) && colon < |u|
    requires forall i | 0 <= i <= colon :: u[i] == t[i]
    ensures MarkerAt(u, key, colon)
  {
    assert u[key..key + 4] == t[key..key + 4];
  }

  /** The marker is decided by what comes before the final braces and spaces. */
  lemma OpMarkerIsEarly(t: string, n: nat)
    requires OpPatchLine(t) && n <= |t|
    requires forall i | n <= i < |t| :: IsSpace(t[i]) || t[i] == '}'
    ensures OpPatchLine(t[..n])
  {
    var key, colon := OpMarkerFound(t);
    MarkerShared(t, t[..n], key, colon);
    OpMarkerAt(t[..n], key, colon);
  }

  lemma OpMarkerTrimmed(text: string, t: string)
    requires OpPatchLine(text) && t != "" && t <= text
    requires forall i | |t| <= i < |text| :: text[i] == '}'
    ensures OpPatchLine(Trim(t))
  {
    var n := EndOf(t);
    assert t[0] == text[0] == '{';
    assert LeadOf(t) == 0;
    assert TrimStart(t) == t;
    assert forall i | n <= i < |t| :: text[i] == t[i];
    OpMarkerIsEarly(text, n);
    assert text[..n] == t[..n];
  }

  lemma VisibleStarts(line: PatchLine)
    requires NeatLine(line)
    ensures line.Visible() != "" && line.Visible()[0] == '{' && Blank(line.lead) && Blank(line.tail)
    ensures OpPatchLine(Trim(line.Visible()))
  {
    var text := Print(line.Patch());
    assert text == Body(line.Patch()) + "}";
    OpMarkerTrimmed(text, line.Visible());
    WsInert(line.lead);
    WsInert(line.tail);
  }

  /** A patch line, cut or not, still announces itself. */
  lemma WrittenAnnounces(line: PatchLine)
    requires NeatLine(line)
    ensures OpPatchLine(Trim(line.Written()))
  {
    VisibleStarts(line);
    TrimSurrounded(line.lead, line.Visible(), line.tail);
  }

  /** A line that announces a patch is neither blank nor the closing marker. */
  lemma OpLineIsNoMarker(line: string)
    requires OpPatchLine(Trim(line))
    ensures "{" <= Trim(line) && !ClosesFence(line)
  {
    assert SPEC_FENCE_CLOSE[0] == '`';
  }

  // ---- one patch line -----------------------------------------------------

  /** The state with whatever is still open rescued or dropped. */
  function Settled<S, P>(core: Core<S, P>, st: State<S>): State<S> {
    if MidPatch(st) then GiveUp(core, st, Truncated) else st
  }

  /** The active block, counting a patch that is still open and can be rescued. */
  function Effective<S, P>(core: Core<S, P>, st: State<S>): Segment<S>
    requires WellFormed(st) && st.inFence
    ensures Effective(core, st).SpecSegment?
  {
    GiveUpStays(core, st, Truncated);
    Settled(core, st).segments[st.active]
  }

  lemma SettledIsEmpty<S, P>(core: Core<S, P>, st: State<S>)
    requires WellFormed(st) && st.inFence
    ensures Settled(core, st).held == NOTHING && SameBlock(st, Settled(core, st))
  {
    GiveUpStays(core, st, Truncated);
  }

  lemma NothingIsEmpty()
    ensures IsEmpty(NOTHING)
  {
    assert Blank("");
    TrimBlank("");
  }

  /** What is held after a line depends only on what was held before it. */
  lemma AbsorbHeld<S, P>(core: Core<S, P>, fed: State<S>)
    ensures Absorb(core, fed).held
         == if !IsUnrecoverable(fed.held.scan) && !IsComplete(fed.held.scan) then fed.held else NOTHING
  {}

  /** A complete text applies its patch at once. */
  lemma CompleteAbsorbed<S, P>(core: Core<S, P>, st: State<S>, text: string)
    requires WellFormed(st) && st.inFence && st.held == NOTHING
    requires IsComplete(Run(FRESH, text)) && Trim(text) != ""
    ensures var next := Absorb(core, st.(held := Held(text, Run(FRESH, text))));
            && next.held == NOTHING && SameBlock(st, next)
            && next.segments[st.active] == Applied(core, st.segments[st.active], Trim(text))
  {}

  /** A text that only lacks its final brace waits, and giving it up applies its repair. */
  lemma OpenAbsorbed<S, P>(core: Core<S, P>, st: State<S>, text: string, raw: string)
    requires WellFormed(st) && st.inFence && st.held == NOTHING
    requires Run(FRESH, text) == INNER && StartsOpen(text) && Repaired(text, INNER) != ""
    requires core.parse(Repaired(text, INNER)) == core.parse(raw)
    ensures var fed := st.(held := Held(text, Run(FRESH, text)));
            && Absorb(core, fed) == fed && WellFormed(fed)
            && Effective(core, fed) == Applied(core, st.segments[st.active], raw)
  {
    var fed := st.(held := Held(text, INNER));
    assert MidPatch(fed);
    assert WellFormed(fed);
  }

  lemma TailJoins(line: PatchLine, w: string)
    ensures line.Written() + w == line.lead + line.Visible() + (line.tail + w)
  {}

  lemma IntactText(line: PatchLine, w: string)
    requires NeatLine(line) && !line.cut && (w == "" || w == "\n")
    ensures var text := line.Written() + w;
            IsComplete(Run(FRESH, text)) && Trim(text) == Print(line.Patch()) != ""
  {
    var v := line.Patch();
    TailJoins(line, w);
    CompleteAfter(line.lead, v, line.tail + w);
    WsInert(line.lead);
    WsInert(line.tail + w);
    TrimTight(line.lead, Print(v), line.tail + w);
  }

  lemma CutText(line: PatchLine, w: string)
    requires NeatLine(line) && line.cut && (w == "" || w == "\n")
    ensures Run(FRESH, line.Written() + w) == INNER && StartsOpen(line.Written() + w)
    ensures Repaired(line.Written() + w, INNER) == line.lead + Print(Tight(line.Patch())) != ""
  {
    TailJoins(line, w);
    RepairRestoresObject(line.lead, line.Patch(), line.tail + w);
    VisibleStarts(line);
    WsInert(line.tail + w);
    TrimSurrounded(line.lead, line.Visible(), line.tail + w);
    OpLineIsNoMarker(line.Visible());
  }

  /** What a patch line leaves when the accumulator starts empty. */
  lemma FreshLineApplied<S, P>(core: Core<S, P>, st: State<S>, line: PatchLine, w: string)
    requires WellFormed(st) && st.inFence && st.held == NOTHING && GoodLine(core, line)
    requires w == "" || w == "\n"
    ensures var text := line.Written() + w;
            var next := Absorb(core, st.(held := Held(text, Run(FRESH, text))));
            && WellFormed(next) && SameBlock(st, next)
            && Effective(core, next) == Applied(core, st.segments[st.active], Print(line.Patch()))
  {
    if line.cut {
      CutText(line, w);
      OpenAbsorbed(core, st, line.Written() + w, Print(line.Patch()));
    } else {
      var text := line.Written() + w;
      IntactText(line, w);
      CompleteAbsorbed(core, st, text);
      var next := Absorb(core, st.(held := Held(text, Run(FRESH, text))));
      SameBlockWellFormed(st, next);
      EffectiveWhenEmpty(core, next);
    }
  }

  lemma EffectiveWhenEmpty<S, P>(core: Core<S, P>, st: State<S>)
    requires WellFormed(st) && st.inFence && st.held == NOTHING
    ensures Effective(core, st) == st.segments[st.active]
  {
    NothingIsEmpty();
  }

  /** Whatever was buffered before, a patch line cut or intact has in effect applied its patch. */
  lemma LineApplied<S, P>(core: Core<S, P>, st: State<S>, line: PatchLine, hadNewline: bool)
    requires WellFormed(st) && st.inFence && GoodLine(core, line)
    ensures var next := ProcessLine(core, st, line.Written(), hadNewline);
            && WellFormed(next) && SameBlock(st, next)
            && Effective(core, next) == Applied(core, Effective(core, st), Print(line.Patch()))
  {
    var ready := Settled(core, st);
    SettledIsEmpty(core, st);
    SameBlockWellFormed(st, ready);
    WrittenAnnounces(line);
    OpLineOnReady(core, st, line.Written(), hadNewline);
    FreshLineApplied(core, ready, line, if hadNewline then "\n" else "");
  }

  /** An op line settles whatever is open, then is absorbed from a fresh start. */
  lemma OpLineOnReady<S, P>(core: Core<S, P>, st: State<S>, line: string, hadNewline: bool)
    requires WellFormed(st) && st.inFence && OpPatchLine(Trim(line))
    ensures var text := line + (if hadNewline then "\n" else "");
            ProcessLine(core, st, line, hadNewline)
            == Absorb(core, Settled(core, st).(held := Held(text, Run(FRESH, text))))
  {
    SettledIsEmpty(core, st);
    NothingIsEmpty();
    OpLineIsNoMarker(line);
    assert Ready(core, st, Trim(line)) == Settled(core, st);
    var text := line + (if hadNewline then "\n" else "");
    assert Physical(line, hadNewline) == text;
    assert Fed(NOTHING, text) == Held(text, Run(FRESH, text)) by {
      assert "" + text == text;
    }
  }

  /** What an op line leaves in the accumulator: a function of the line alone. */
  function LeftBehind(line: string, hadNewline: bool): Held {
    var text := line + (if hadNewline then "\n" else "");
    var scan := Run(FRESH, text);
    if !IsUnrecoverable(scan) && !IsComplete(scan) then Held(text, scan) else NOTHING
  }

  lemma OpLineHeld<S, P>(core: Core<S, P>, st: State<S>, line: string, hadNewline: bool)
    requires WellFormed(st) && st.inFence && OpPatchLine(Trim(line))
    ensures ProcessLine(core, st, line, hadNewline).held == LeftBehind(line, hadNewline)
  {
    var text := line + (if hadNewline then "\n" else "");
    OpLineOnReady(core, st, line, hadNewline);
    AbsorbHeld(core, Settled(core, st).(held := Held(text, Run(FRESH, text))));
  }

  lemma EmptiedStaysWellFormed<S>(st: State<S>)
    requires WellFormed(st)
    ensures WellFormed(st.(held := NOTHING))
  {}

  /** An op line finds the accumulator as if it had started empty, whatever was buffered before:
      it leaves behind the same held text and scan. */
  lemma OpLineForgets<S, P>(core: Core<S, P>, st: State<S>, line: string, hadNewline: bool)
    requires WellFormed(st) && st.inFence && OpPatchLine(Trim(line))
    ensures ProcessLine(core, st, line, hadNewline).held
         == ProcessLine(core, st.(held := NOTHING), line, hadNewline).held
  {
    OpLineHeld(core, st, line, hadNewline);
    EmptiedStaysWellFormed(st);
    OpLineHeld(core, st.(held := NOTHING), line, hadNewline);
  }

  // ---- whole blocks -------------------------------------------------------

  function WrittenAll(lines: seq<PatchLine>): (texts: seq<string>)
    ensures |texts| == |lines| && forall i | 0 <= i < |lines| :: texts[i] == lines[i].Written()
  {
    seq(|lines|, i requires 0 <= i < |lines| => lines[i].Written())
  }

  lemma {:induction false} LinesApplied<S, P>(core: Core<S, P>, st: State<S>, lines: seq<PatchLine>)
    requires WellFormed(st) && st.inFence
    requires forall l | l in lines :: GoodLine(core, l)
    ensures var later := ProcessLines(core, st, WrittenAll(lines));
            && WellFormed(later) && later.inFence && later.active == st.active
            && |later.segments| == |st.segments|
            && Effective(core, later) == AppliedAll(core, Effective(core, st), lines)
    decreases |lines|
  {
    if lines != [] {
      assert WrittenAll(lines)[1..] == WrittenAll(lines[1..]);
      LineApplied(core, st, lines[0], true);
      LinesApplied(core, ProcessLine(core, st, lines[0].Written(), true), lines[1..]);
    }
  }

  /** How a block ends: on its closing marker, or with the stream (its last line complete or not). */
  datatype Ending = Closed | EndOfStream | EndOfStreamAfter(last: PatchLine)

  ghost predicate GoodEnding<S, P>(core: Core<S, P>, ending: Ending) {
    ending.EndOfStreamAfter? ==> GoodLine(core, ending.last)
  }

  function LastLine(ending: Ending): string
  {
    match ending
    case Closed => SPEC_FENCE_CLOSE
    case EndOfStream => ""
    case EndOfStreamAfter(last) => last.Written()
  }

  function AllLines(lines: seq<PatchLine>, ending: Ending): seq<PatchLine> {
    if ending.EndOfStreamAfter? then lines + [ending.last] else lines
  }

  /** What the block gives when every line is intact. */
  function IntactBlock<S, P>(core: Core<S, P>, lines: seq<PatchLine>, ending: Ending): Segment<S> {
    var block := AppliedAll(core, SpecSegment(core.empty, 0, false), AllLines(lines, ending));
    block.(closed := ending.Closed?)
  }

  function BlockMessage(lines: seq<PatchLine>, ending: Ending): string
  {
    SPEC_FENCE_OPEN + "\n" + (JoinLines(WrittenAll(lines)) + LastLine(ending))
  }

  lemma EndSettles<S, P>(core: Core<S, P>, st: State<S>, ending: Ending, final: bool)
    requires WellFormed(st) && st.inFence && |st.segments| == 1 && GoodEnding(core, ending)
    requires ending.Closed? || final
    ensures var done := Flush(core, Parser(st, LastLine(ending)), final).state;
            var effective := Effective(core, st);
            done.segments == [match ending
                              case Closed => effective.(closed := true)
                              case EndOfStream => effective
                              case EndOfStreamAfter(last) => Applied(core, effective, Print(last.Patch()))]
  {
    NothingIsEmpty();
    match ending
    case Closed =>
      MarkerCloses();
      SettledIsEmpty(core, st);
      GiveUpStays(core, st, ClosedMidPatch);
    case EndOfStream =>
      GiveUpStays(core, st, Unterminated);
    case EndOfStreamAfter(last) =>
      var next := ProcessLine(core, st, last.Written(), false);
      LineApplied(core, st, last, false);
      GiveUpStays(core, next, Unterminated);
      VisibleStarts(last);
  }

  lemma MarkerCloses()
    ensures ClosesFence(SPEC_FENCE_CLOSE) && SPEC_FENCE_CLOSE != ""
  {
    assert "" + SPEC_FENCE_CLOSE + "" == SPEC_FENCE_CLOSE;
    TrimTight("", SPEC_FENCE_CLOSE, "");
  }

  /** A block of single-line patches, any of which lost their final brace, gives exactly the spec
      and the patch count of the intact block. */
  lemma TruncationRecovered<S, P>(core: Core<S, P>, lines: seq<PatchLine>, ending: Ending, final: bool)
    requires forall l | l in lines :: GoodLine(core, l)
    requires GoodEnding(core, ending) && (ending.Closed? || final)
    ensures ParseMessage(core, BlockMessage(lines, ending), final).segments
         == [IntactBlock(core, lines, ending)]
  {
    var start: Parser<S> := Initial();
    var texts := WrittenAll(lines);
    var message := BlockMessage(lines, ending);
    BlockSplits(core, lines, ending);
    assert "" + message == message;
    var begun := OpenSpec(core, start.state);
    OpenKeeps(core, start.state);
    var st := ProcessLines(core, begun, texts);
    OpeningLine(core, start.state, texts);
    assert Push(core, start, message) == Parser(st, LastLine(ending));
    LinesApplied(core, begun, lines);
    EffectiveWhenEmpty(core, begun);
    EndSettles(core, st, ending, final);
    if ending.EndOfStreamAfter? {
      AppliedSnoc(core, SpecSegment(core.empty, 0, false), lines, ending.last);
    }
  }

  lemma OpeningLine<S, P>(core: Core<S, P>, st: State<S>, texts: seq<string>)
    requires !st.inFence
    ensures ProcessLines(core, st, [SPEC_FENCE_OPEN] + texts) == ProcessLines(core, OpenSpec(core, st), texts)
  {
    assert "" + SPEC_FENCE_OPEN + "" == SPEC_FENCE_OPEN;
    TrimTight("", SPEC_FENCE_OPEN, "");
    assert ([SPEC_FENCE_OPEN] + texts)[1..] == texts;
  }

  lemma BlockSplits<S, P>(core: Core<S, P>, lines: seq<PatchLine>, ending: Ending)
    requires forall l | l in lines :: GoodLine(core, l)
    requires GoodEnding(core, ending)
    ensures SplitLines(BlockMessage(lines, ending)) == Split([SPEC_FENCE_OPEN] + WrittenAll(lines), LastLine(ending))
  {
    forall i | 0 <= i < |lines|
      ensures NoNewline(WrittenAll(lines)[i])
    {
      assert lines[i] in lines;
      WrittenOnOneLine(lines[i]);
    }
    if ending.EndOfStreamAfter? {
      WrittenOnOneLine(ending.last);
    }
    SplitOfJoin(WrittenAll(lines), LastLine(ending));
    SplitAt(SPEC_FENCE_OPEN, JoinLines(WrittenAll(lines)) + LastLine(ending));
  }

  lemma WrittenOnOneLine(line: PatchLine)
    requires NeatLine(line)
    ensures NoNewline(line.Written())
  {
    assert Print(line.Patch()) == Body(line.Patch()) + "}";
  }

  // ---- cut and intact blocks compared -------------------------------------

  /** The same lines with every final brace in place. */
  function Restored(lines: seq<PatchLine>): (r: seq<PatchLine>)
    ensures |r| == |lines| && forall i | 0 <= i < |r| :: r[i] == lines[i].(cut := false)
  {
    seq(|lines|, i requires 0 <= i < |lines| => lines[i].(cut := false))
  }

  function RestoredEnding(ending: Ending): Ending {
    match ending
    case EndOfStreamAfter(last) => EndOfStreamAfter(last.(cut := false))
    case _ => ending
  }

  lemma {:induction false} RestoredApplies<S, P>(core: Core<S, P>, block: Segment<S>, lines: seq<PatchLine>)
    requires block.SpecSegment?
    ensures AppliedAll(core, block, Restored(lines)) == AppliedAll(core, block, lines)
    decreases |lines|
  {
    if lines != [] {
      assert Restored(lines)[1..] == Restored(lines[1..]);
      RestoredApplies(core, Applied(core, block, Print(lines[0].Patch())), lines[1..]);
    }
  }

  /** Dropping final braces, on whichever lines, changes neither the spec nor the patch count. */
  lemma LostBracesLoseNothing<S, P>(core: Core<S, P>, lines: seq<PatchLine>, ending: Ending, final: bool)
    requires forall l | l in lines :: GoodLine(core, l)
    requires GoodEnding(core, ending) && (ending.Closed? || final)
    ensures ParseMessage(core, BlockMessage(lines, ending), final).segments
         == ParseMessage(core, BlockMessage(Restored(lines), RestoredEnding(ending)), final).segments
  {
    var restored := Restored(lines);
    forall l | l in restored
      ensures GoodLine(core, l)
    {
      var i :| 0 <= i < |restored| && l == restored[i];
      assert lines[i] in lines;
    }
    IntactRestored(core, lines, ending);
    TruncationRecovered(core, lines, ending, final);
    TruncationRecovered(core, restored, RestoredEnding(ending), final);
  }

  lemma IntactRestored<S, P>(core: Core<S, P>, lines: seq<PatchLine>, ending: Ending)
    ensures IntactBlock(core, Restored(lines), RestoredEnding(ending)) == IntactBlock(core, lines, ending)
  {
    RestoredApplies(core, SpecSegment(core.empty, 0, false), AllLines(lines, ending));
    assert AllLines(Restored(lines), RestoredEnding(ending)) == Restored(AllLines(lines, ending));
  }
}
