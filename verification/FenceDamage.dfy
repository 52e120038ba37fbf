/** What every line and the end of a message do to a block, told from their text alone; exactly which patches
    that were cut are rescued, and what is reported of the others. */
module FenceDamage {
  import opened Wrappers
  import opened Text
  import opened PatchAccumulators
  import opened JsonText
  import opened FenceSpec
  import opened FenceInvariant
  import opened FenceRecovery
  import opened FenceMultiline

  /** The text with the brackets that it still owes. */
  function WithOwedClosers(text: string): string {
    TrimEnd(text) + Reversed(Run(FRESH, text).closers)
  }

  /** Scanned from a fresh start, the text ends one bracket deep and outside every string, and closing that
      bracket makes it a patch. */
  predicate OneBraceShort<S, P>(core: Core<S, P>, text: string) {
    Run(FRESH, text).depth == 1 && !Run(FRESH, text).inString && core.parse(WithOwedClosers(text)).Some?
  }

  /** The state after an open patch was given up, all told from its text: applied to the active block and
      counted, or else reported and dropped with the block as it was. */
  function Resolved<S, P>(core: Core<S, P>, st: State<S>, complaint: Complaint): State<S>
    requires OnSpec(st)
  {
    var text, block := st.held.text, st.segments[st.active];
    if OneBraceShort(core, text) then
      var next := SpecSegment(core.apply(block.spec, core.parse(WithOwedClosers(text)).value),
                              block.patchCount + 1, block.closed);
      State(st.segments[st.active := next], st.inFence, st.active, NOTHING,
            st.events + [PatchApplied(st.active, block.patchCount + 1)])
    else
      State(st.segments, st.inFence, st.active, NOTHING, st.events + [SpecError(complaint, Trim(text))])
  }

  lemma RepairIsNotEmpty(text: string)
    requires Run(FRESH, text).depth == 1
    ensures WithOwedClosers(text) != ""
  {
    ClosersTrackDepth(text);
    assert Run(FRESH, text).closers != "";
  }

  lemma GivenUp<S, P>(core: Core<S, P>, st: State<S>, complaint: Complaint)
    requires WellFormed(st) && st.inFence && st.held != NOTHING
    ensures GiveUp(core, st, complaint) == Resolved(core, st, complaint)
  {
    EscapesInStrings(FRESH, st.held.text);
    if OneBraceShort(core, st.held.text) {
      RepairIsNotEmpty(st.held.text);
    }
  }

  lemma OpenIsMidPatch<S>(st: State<S>)
    requires WellFormed(st) && st.inFence && st.held != NOTHING
    ensures MidPatch(st) && Trim(st.held.text) != ""
  {}

  /** The next patch line: the open patch is rescued or reported as truncated, and the line starts afresh. */
  lemma NextPatchLineResolves<S, P>(core: Core<S, P>, st: State<S>, line: string, hadNewline: bool)
    requires WellFormed(st) && st.inFence && st.held != NOTHING && Announces(line)
    ensures ProcessLine(core, st, line, hadNewline)
         == ProcessLine(core, Resolved(core, st, Truncated), line, hadNewline)
  {
    OpenIsMidPatch(st);
    GivenUp(core, st, Truncated);
    var ready := Settled(core, st);
    SettledIsEmpty(core, st);
    SameBlockWellFormed(st, ready);
    NothingIsEmpty();
    OpLineOnReady(core, st, line, hadNewline);
    OpLineOnReady(core, ready, line, hadNewline);
  }

  /** The closing marker: the open patch is rescued or reported as cut off by it, and the block is closed. */
  lemma ClosingMarkerResolves<S, P>(core: Core<S, P>, st: State<S>, line: string, hadNewline: bool)
    requires WellFormed(st) && st.inFence && Trim(line) == "```"
    ensures var resolved := if st.held == NOTHING then st else Resolved(core, st, ClosedMidPatch);
            var block := resolved.segments[st.active];
            ProcessLine(core, st, line, hadNewline)
            == State(resolved.segments[st.active := block.(closed := true)], false, -1, NOTHING, resolved.events)
  {
    if st.held == NOTHING {
      NothingIsEmpty();
    } else {
      OpenIsMidPatch(st);
      GivenUp(core, st, ClosedMidPatch);
    }
  }

  /** The end of the stream: the open patch is rescued or reported as unterminated when the message is final,
      and only forgotten when it is not. */
  lemma EndResolves<S, P>(core: Core<S, P>, st: State<S>, final: bool)
    requires WellFormed(st) && st.inFence
    ensures var resolved := if final && st.held != NOTHING then Resolved(core, st, Unterminated) else st;
            Flush(core, Parser(st, ""), final)
            == Parser(State(resolved.segments, false, st.active, NOTHING, resolved.events), "")
  {
    if st.held == NOTHING {
      NothingIsEmpty();
    } else {
      OpenIsMidPatch(st);
      GivenUp(core, st, Unterminated);
    }
  }

  // ---- every line ---------------------------------------------------------

  /** What a text that was just fed becomes, all told from the text: beyond repair and reported; complete, and
      applied or reported; or held. */
  function Fallen<S, P>(core: Core<S, P>, st: State<S>, text: string): State<S>
    requires OnSpec(st)
  {
    var scan := Run(FRESH, text);
    if scan.depth < 0 then Reported(st, Trim(text))
    else if scan.sawOpen && scan.depth == 0 && !scan.inString then Judged(core, st, Trim(text))
    else st.(held := Held(text, scan))
  }

  /** A complete text: a patch is applied, anything else reported. */
  function Judged<S, P>(core: Core<S, P>, st: State<S>, text: string): State<S>
    requires OnSpec(st)
  {
    match core.parse(text)
    case None => Reported(st, text)
    case Some(p) => Counted(core, st, p)
  }

  /** Nothing is held any more, and the text is reported as no patch. */
  function Reported<S>(st: State<S>, patch: string): State<S> {
    State(st.segments, st.inFence, st.active, NOTHING, st.events + [SpecError(Unparseable, patch)])
  }

  /** Nothing is held any more, and the patch is applied to the active block and counted. */
  function Counted<S, P>(core: Core<S, P>, st: State<S>, patch: P): State<S>
    requires OnSpec(st)
  {
    var block := st.segments[st.active];
    var next := SpecSegment(core.apply(block.spec, patch), block.patchCount + 1, block.closed);
    State(st.segments[st.active := next], st.inFence, st.active, NOTHING,
          st.events + [PatchApplied(st.active, block.patchCount + 1)])
  }

  lemma ApplyCounts<S, P>(core: Core<S, P>, st: State<S>, raw: string)
    requires OnSpec(st) && raw != "" && st.held == NOTHING
    ensures ApplyRaw(core, st, raw) == Judged(core, st, raw)
  {}

  lemma AbsorbsByScan<S, P>(core: Core<S, P>, fed: State<S>)
    ensures var scan, text := fed.held.scan, Trim(fed.held.text);
            Absorb(core, fed)
            == if scan.depth < 0 then Reported(fed, text)
               else if scan.sawOpen && scan.depth == 0 && !scan.inString
               then ApplyRaw(core, fed.(held := NOTHING), text)
               else fed
  {}

  lemma HeldIsForgotten<S, P>(core: Core<S, P>, st: State<S>, held: Held, text: string)
    requires OnSpec(st)
    ensures Reported(st.(held := held), text) == Reported(st, text)
    ensures Judged(core, st.(held := held), text) == Judged(core, st, text)
  {}

  lemma AbsorbFalls<S, P>(core: Core<S, P>, st: State<S>, text: string)
    requires OnSpec(st) && Trim(text) != ""
    ensures Absorb(core, st.(held := Held(text, Run(FRESH, text)))) == Fallen(core, st, text)
  {
    var held := Held(text, Run(FRESH, text));
    AbsorbsByScan(core, st.(held := held));
    ApplyCounts(core, st.(held := NOTHING), Trim(text));
    HeldIsForgotten(core, st, held, Trim(text));
    HeldIsForgotten(core, st, NOTHING, Trim(text));
  }

  /** A line outside every block opens one exactly when its first visible text is the opening marker. */
  lemma OutsideLine<S, P>(core: Core<S, P>, st: State<S>, line: string, hadNewline: bool)
    requires !st.inFence
    ensures ProcessLine(core, st, line, hadNewline)
         == if "```spec" <= Trim(line)
            then State(st.segments + [SpecSegment(core.empty, 0, false)], true, |st.segments|, NOTHING,
                       st.events + [SpecOpened])
            else AppendText(st, if hadNewline then line + "\n" else line)
  {}

  lemma UnopenedLine<S, P>(core: Core<S, P>, st: State<S>, line: string, hadNewline: bool)
    requires WellFormed(st) && st.inFence && st.held == NOTHING && !ClosesFence(line) && !("{" <= Trim(line))
    ensures ProcessLine(core, st, line, hadNewline)
         == if Trim(line) == "" then st else Complain(st, Unparseable, Trim(line))
  {
    NothingIsEmpty();
  }

  lemma OpeningLineFed<S, P>(core: Core<S, P>, st: State<S>, line: string, hadNewline: bool)
    requires WellFormed(st) && st.inFence && st.held == NOTHING && !ClosesFence(line) && "{" <= Trim(line)
    ensures var text := Physical(line, hadNewline);
            && Trim(text) != ""
            && ProcessLine(core, st, line, hadNewline) == Absorb(core, st.(held := Held(text, Run(FRESH, text))))
  {
    ReadyAlready(core, st, Trim(line));
    FedFresh(Physical(line, hadNewline));
    StillVisible(line, hadNewline);
  }

  lemma ReadyAlready<S, P>(core: Core<S, P>, st: State<S>, trimmed: string)
    requires st.held == NOTHING
    ensures IsEmpty(st.held) && Ready(core, st, trimmed) == st
  {
    NothingIsEmpty();
  }

  lemma FedFresh(text: string)
    ensures Fed(NOTHING, text) == Held(text, Run(FRESH, text))
  {
    assert "" + text == text;
  }

  lemma StillVisible(line: string, hadNewline: bool)
    requires "{" <= Trim(line)
    ensures Trim(Physical(line, hadNewline)) != ""
  {
    MarkerPersists(line, "\n", "{");
  }

  /** A line of a block with nothing held, other than the closing marker: blank lines are skipped, lines that
      open no object are reported, the others are fed. */
  lemma FreshLine<S, P>(core: Core<S, P>, st: State<S>, line: string, hadNewline: bool)
    requires WellFormed(st) && st.inFence && st.held == NOTHING && Trim(line) != "```"
    ensures var visible := Trim(line);
            ProcessLine(core, st, line, hadNewline)
            == if visible == "" then st
               else if visible[0] != '{' then st.(events := st.events + [SpecError(Unparseable, visible)])
               else Fallen(core, st, if hadNewline then line + "\n" else line)
  {
    if "{" <= Trim(line) {
      OpeningLineFed(core, st, line, hadNewline);
      AbsorbFalls(core, st, Physical(line, hadNewline));
    } else {
      UnopenedLine(core, st, line, hadNewline);
    }
  }

  /** A line of a block with an open patch, other than the closing marker: unless it announces a patch it is
      fed behind what is held. */
  lemma ContinuingLine<S, P>(core: Core<S, P>, st: State<S>, line: string, hadNewline: bool)
    requires WellFormed(st) && st.inFence && st.held != NOTHING && Trim(line) != "```" && !Announces(line)
    ensures ProcessLine(core, st, line, hadNewline)
         == Fallen(core, st, st.held.text + if hadNewline then line + "\n" else line)
  {
    OpenIsMidPatch(st);
    HeldAfterFeeding(st.held, line, hadNewline);
    AbsorbFalls(core, st, st.held.text + Physical(line, hadNewline));
  }

  // ---- patches cut inside a nested value ----------------------------------

  function Count(m: Members): nat {
    if m.NoMembers? then 0 else 1 + Count(m.rest)
  }

  function ValueAt(m: Members, i: nat): Json
    requires i < Count(m)
  {
    if i == 0 then m.value else ValueAt(m.rest, i - 1)
  }

  function Introduced(m: Members): string
    requires m.Member?
  {
    Quoted(m.key) + (m.afterKey + ":" + m.beforeValue)
  }

  /** What is printed of the members before the value of member `i`. */
  function UpToValue(m: Members, i: nat): string
    requires i < Count(m)
  {
    if i == 0 then Introduced(m)
    else Introduced(m) + Print(m.value) + m.after + (("," + m.before) + UpToValue(m.rest, i - 1))
  }

  /** What is printed of them after it. */
  function AfterValue(m: Members, i: nat): string
    requires i < Count(m)
  {
    if i == 0 then m.after + (if m.rest.NoMembers? then "" else ("," + m.before) + PrintMembers(m.rest))
    else AfterValue(m.rest, i - 1)
  }

  lemma {:induction false} MembersSplit(m: Members, i: nat)
    requires i < Count(m)
    ensures PrintMembers(m) == UpToValue(m, i) + (Print(ValueAt(m, i)) + AfterValue(m, i))
    decreases i
  {
    if i == 0 {
      FirstSplits(Introduced(m), Print(m.value), m.after,
                  if m.rest.NoMembers? then "" else ("," + m.before) + PrintMembers(m.rest));
    } else {
      MembersSplit(m.rest, i - 1);
      LaterSplits(Introduced(m) + Print(m.value) + m.after, "," + m.before, UpToValue(m.rest, i - 1),
                  Print(ValueAt(m, i)) + AfterValue(m, i));
    }
  }

  lemma FirstSplits(a: string, b: string, c: string, d: string)
    ensures a + b + c + d == a + (b + (c + d))
  {}

  lemma LaterSplits(a: string, b: string, c: string, d: string)
    ensures a + (b + (c + d)) == (a + (b + c)) + d
  {}

  lemma {:induction false} ValuesAreValid(m: Members, i: nat)
    requires i < Count(m) && ValidMembers(m)
    ensures Valid(ValueAt(m, i))
    decreases i
  {
    if i > 0 {
      ValuesAreValid(m.rest, i - 1);
    }
  }

  lemma IntroductionLevel(s: Scan, m: Members)
    requires Outside(s) && m.Member? && ValidMembers(m)
    ensures Level(s, Introduced(m), false)
  {
    QuotedLevel(s, m.key);
    WsInert(m.afterKey);
    WsInert(m.beforeValue);
    InertLevel(s, m.afterKey + ":" + m.beforeValue);
    LevelConcat(s, Quoted(m.key), m.afterKey + ":" + m.beforeValue, false, false);
  }

  lemma {:induction false} UpToValueLevel(s: Scan, m: Members, i: nat)
    requires Outside(s) && s.sawOpen && i < Count(m) && ValidMembers(m)
    ensures Level(s, UpToValue(m, i), false)
    decreases i
  {
    IntroductionLevel(s, m);
    if i > 0 {
      ValueLevel(s, m.value);
      LevelConcat(s, Introduced(m), Print(m.value), false, false);
      WsInert(m.after);
      InertLevel(s, m.after);
      LevelConcat(s, Introduced(m) + Print(m.value), m.after, false, false);
      WsInert(m.before);
      UpToValueLevel(s, m.rest, i - 1);
      CommaLevel(s, Introduced(m) + Print(m.value) + m.after, m.before, UpToValue(m.rest, i - 1));
    }
  }

  lemma OpenContentIsDeeper(s: Scan, l: char, body: string, k: nat)
    requires Outside(s) && (l == '[' || l == '{') && Level(Step(s, l), body, false) && k <= |body|
    ensures Run(s, [l] + body[..k]).depth > s.depth
  {
    StaysAbovePrefix(Step(s, l), body, s.depth + 1, k);
    assert ([l] + body[..k])[1..] == body[..k];
  }

  lemma ContentLevels(s: Scan, v: Json)
    requires Outside(s) && s.sawOpen && Valid(v) && (v.Array? || v.Object?)
    ensures Level(s, v.open + (if v.Array? then PrintElements(v.elements) else PrintMembers(v.members)), false)
  {
    WsInert(v.open);
    InertLevel(s, v.open);
    if v.Array? {
      ElementsLevel(s, v.elements);
      LevelConcat(s, v.open, PrintElements(v.elements), false, false);
    } else {
      MembersLevel(s, v.members);
      LevelConcat(s, v.open, PrintMembers(v.members), false, false);
    }
  }

  /** Short of its closing bracket, an array or object is deeper than what surrounds it. */
  lemma OpenValueIsDeeper(s: Scan, v: Json, k: nat)
    requires Outside(s) && s.sawOpen && Valid(v) && (v.Array? || v.Object?) && 1 <= k < |Print(v)|
    ensures Run(s, Print(v)[..k]).depth > s.depth
  {
    var l := if v.Array? then '[' else '{';
    var body := v.open + (if v.Array? then PrintElements(v.elements) else PrintMembers(v.members));
    ContentLevels(Step(s, l), v);
    OpenContentIsDeeper(s, l, body, k - 1);
    assert Print(v)[..k] == [l] + body[..k - 1];
  }

  /** A printed object cut inside member `i`'s value after `k` characters of it. */
  function CutInside(lead: string, v: Json, i: nat, k: nat): string
    requires v.Object? && i < Count(v.members) && k <= |Print(ValueAt(v.members, i))|
  {
    lead + ("{" + (v.open + (UpToValue(v.members, i) + Print(ValueAt(v.members, i))[..k])))
  }

  /** The value of member `i` is an array or object, and the cut comes after its opening bracket and before
      its closing one: so does every cut inside anything nested deeper. */
  predicate CutsNested(v: Json, i: nat, k: nat) {
    && v.Object? && Valid(v) && i < Count(v.members)
    && (ValueAt(v.members, i).Array? || ValueAt(v.members, i).Object?)
    && 1 <= k < |Print(ValueAt(v.members, i))|
  }

  lemma CutIsPrefix(lead: string, v: Json, i: nat, k: nat)
    requires CutsNested(v, i, k)
    ensures CutInside(lead, v, i, k) <= lead + Print(v)
  {
    MembersSplit(v.members, i);
    PrefixOfParts(lead, v.open, UpToValue(v.members, i), Print(ValueAt(v.members, i)), AfterValue(v.members, i),
                  PrintMembers(v.members), k);
    ObjectPrints(v);
  }

  lemma ObjectPrints(v: Json)
    requires v.Object?
    ensures Print(v) == "{" + (v.open + PrintMembers(v.members)) + "}"
  {}

  lemma PrefixOfParts(lead: string, open: string, a: string, b: string, c: string, all: string, k: nat)
    requires k <= |b| && all == a + (b + c)
    ensures lead + ("{" + (open + (a + b[..k]))) <= lead + ("{" + (open + all) + "}")
  {
    assert all == (a + b[..k]) + (b[k..] + c);
    PrefixGrows(open, a + b[..k], b[k..] + c, all);
    PrefixGrows("{", open + (a + b[..k]), (b[k..] + c), open + all);
    assert "{" + (open + all) <= "{" + (open + all) + "}";
    PrefixStays(lead, "{" + (open + (a + b[..k])), "{" + (open + all) + "}");
  }

  lemma PrefixGrows(x: string, y: string, z: string, all: string)
    requires all == y + z
    ensures x + all == (x + y) + z && x + y <= x + all
  {}

  lemma PrefixStays(x: string, y: string, z: string)
    requires y <= z
    ensures x + y <= x + z
  {
    assert z == y + z[|y|..];
    PrefixGrows(x, y, z[|y|..], z);
  }

  lemma CutIsDeep(lead: string, v: Json, i: nat, k: nat)
    requires CutsNested(v, i, k) && IsWs(lead)
    ensures Run(FRESH, CutInside(lead, v, i, k)).depth >= 2
  {
    var value := ValueAt(v.members, i);
    var rest := UpToValue(v.members, i) + Print(value)[..k];
    WsInert(lead);
    InertLevel(FRESH, lead);
    RunConcat(FRESH, lead, "{" + (v.open + rest));
    OpenedScan(v.open + rest);
    assert ['{'] + (v.open + rest) == "{" + (v.open + rest);
    WsInert(v.open);
    InertLevel(INNER, v.open);
    RunConcat(INNER, v.open, rest);
    UpToValueLevel(INNER, v.members, i);
    RunConcat(INNER, UpToValue(v.members, i), Print(value)[..k]);
    ValuesAreValid(v.members, i);
    OpenValueIsDeeper(INNER, value, k);
  }

  lemma {:induction false} SpaceKeepsDepth(s: Scan, w: string)
    requires Blank(w)
    ensures Run(s, w).depth == s.depth
    decreases w
  {
    if w != "" {
      assert IsSpace(w[0]);
      assert forall i | 0 <= i < |w[1..]| :: IsSpace(w[1..][i]) by {
        assert forall i | 0 <= i < |w[1..]| :: w[1..][i] == w[i + 1];
      }
      SpaceKeepsDepth(Step(s, w[0]), w[1..]);
    }
  }

  /** A patch cut inside a nested array or object, whatever space follows, is never rescued: no bracket is
      invented for it. */
  lemma CutInsideNestedIsNeverRescued<S, P>(core: Core<S, P>, st: State<S>, complaint: Complaint, lead: string,
                                            v: Json, i: nat, k: nat, tail: string)
    requires OnSpec(st) && CutsNested(v, i, k) && IsWs(lead) && Blank(tail)
    requires st.held.text == CutInside(lead, v, i, k) + tail
    ensures CutInside(lead, v, i, k) <= lead + Print(v)
    ensures Resolved(core, st, complaint)
         == st.(held := NOTHING, events := st.events + [SpecError(complaint, Trim(st.held.text))])
  {
    CutIsPrefix(lead, v, i, k);
    CutIsDeep(lead, v, i, k);
    RunConcat(FRESH, CutInside(lead, v, i, k), tail);
    SpaceKeepsDepth(Run(FRESH, CutInside(lead, v, i, k)), tail);
  }

  /** Such a line in a block, followed by the next patch line: it is reported, the block stays as it was, and
      the next line counts as if it came first. */
  lemma CutLineIsReported<S, P>(core: Core<S, P>, st: State<S>, lead: string, v: Json, i: nat, k: nat, next: string)
    requires WellFormed(st) && st.inFence && st.held == NOTHING && Announces(next)
    requires CutsNested(v, i, k) && IsWs(lead) && NoNewline(CutInside(lead, v, i, k))
    ensures var line := CutInside(lead, v, i, k);
            ProcessLines(core, st, [line, next])
            == ProcessLine(core, st.(events := st.events + [SpecError(Truncated, Trim(line + "\n"))]), next, true)
  {
    var line := CutInside(lead, v, i, k);
    CutLineIsHeld(core, st, lead, v, i, k);
    var open := ProcessLine(core, st, line, true);
    TwoLinesProcessed(core, st, line, next);
    NextPatchLineResolves(core, open, next, true);
    CutInsideNestedIsNeverRescued(core, open, Truncated, lead, v, i, k, "\n");
  }

  lemma LineProcessed<S, P>(core: Core<S, P>, st: State<S>, line: string)
    ensures ProcessLines(core, st, [line]) == ProcessLine(core, st, line, true)
  {
    assert [line][1..] == [];
  }

  lemma TwoLinesProcessed<S, P>(core: Core<S, P>, st: State<S>, first: string, second: string)
    ensures ProcessLines(core, st, [first, second])
         == ProcessLine(core, ProcessLine(core, st, first, true), second, true)
  {
    LineProcessed(core, ProcessLine(core, st, first, true), second);
    assert [first, second][1..] == [second];
  }

  lemma CutLineIsHeld<S, P>(core: Core<S, P>, st: State<S>, lead: string, v: Json, i: nat, k: nat)
    requires WellFormed(st) && st.inFence && st.held == NOTHING
    requires CutsNested(v, i, k) && IsWs(lead)
    ensures var line := CutInside(lead, v, i, k);
            var open := ProcessLine(core, st, line, true);
            && WellFormed(open) && open.held == Held(line + "\n", Run(FRESH, line + "\n"))
            && open == st.(held := open.held)
  {
    var line := CutInside(lead, v, i, k);
    WsInert(lead);
    BraceOpens(lead, "{" + (v.open + (UpToValue(v.members, i) + Print(ValueAt(v.members, i))[..k])));
    CutIsDeep(lead, v, i, k);
    RunConcat(FRESH, line, "\n");
    SpaceKeepsDepth(Run(FRESH, line), "\n");
    OpensNoMarker(line);
    assert "" + (line + "\n") == line + "\n";
    LineFed(core, st, "", line);
    LineKeeps(core, st, line, true);
  }

  lemma OpensNoMarker(line: string)
    requires StartsOpen(line)
    ensures !ClosesFence(line)
  {
    assert SPEC_FENCE_CLOSE[0] == '`';
  }
}
