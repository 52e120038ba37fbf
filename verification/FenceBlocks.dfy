/** Blocks of patches over any number of lines, any of which lost their final brace: exactly when all
    of them are applied. */
module FenceBlocks {
  import opened Wrappers
  import opened Text
  import opened PatchAccumulators
  import opened JsonText
  import opened FenceSpec
  import opened FenceInvariant
  import opened FenceStreaming
  import opened FenceRecovery
  import opened FenceMultiline

  /** A patch object and its physical lines. */
  datatype Item = Item(layout: Layout, lines: seq<string>)

  /** The object is one patch, which the library reads the same with or without space before it or its
      final brace; only its first line may look like the start of a patch. */
  ghost predicate GoodItem<S, P>(core: Core<S, P>, item: Item) {
    && LinesOf(item.layout, item.lines) && item.lines != []
    && (forall i | 1 <= i < |item.lines| :: !Announces(item.lines[i]))
    && core.parse(Print(item.layout.v)).Some?
    && core.parse(item.layout.lead + Print(Tight(item.layout.v))) == core.parse(Print(item.layout.v))
  }

  ghost predicate GoodItems<S, P>(core: Core<S, P>, items: seq<Item>) {
    forall i | 0 <= i < |items| :: GoodItem(core, items[i])
  }

  function LinesOfAll(items: seq<Item>): seq<string> {
    if items == [] then [] else items[0].lines + LinesOfAll(items[1..])
  }

  /** What the block amounts to when every patch is applied. */
  function AllApplied<S, P>(core: Core<S, P>, block: Segment<S>, items: seq<Item>): (r: Segment<S>)
    requires block.SpecSegment?
    ensures r.SpecSegment? && r.closed == block.closed
    decreases items
  {
    if items == [] then block else AllApplied(core, Applied(core, block, Print(items[0].layout.v)), items[1..])
  }

  lemma {:induction false} AllAppliedCounts<S, P>(core: Core<S, P>, block: Segment<S>, items: seq<Item>)
    requires block.SpecSegment? && GoodItems(core, items)
    ensures AllApplied(core, block, items).patchCount == block.patchCount + |items|
    decreases |items|
  {
    if items != [] {
      assert GoodItem(core, items[0]);
      RestIsGood(core, items);
      AllAppliedCounts(core, Applied(core, block, Print(items[0].layout.v)), items[1..]);
    }
  }

  lemma RestIsGood<S, P>(core: Core<S, P>, items: seq<Item>)
    requires GoodItems(core, items) && items != []
    ensures GoodItems(core, items[1..])
  {
    assert forall i | 0 <= i < |items[1..]| :: items[1..][i] == items[i + 1];
  }

  // ---- between two objects ------------------------------------------------

  /** Between two objects: nothing is held, or an object that lost its final brace. */
  ghost predicate Between<S>(st: State<S>) {
    && WellFormed(st) && st.inFence
    && (st.held != NOTHING ==> st.held.scan.depth >= 1 && Outside(st.held.scan))
  }

  /** Giving up what is held adds at most one patch. */
  lemma EffectiveAddsOne<S, P>(core: Core<S, P>, st: State<S>)
    requires WellFormed(st) && st.inFence
    ensures var count := st.segments[st.active].patchCount;
            count <= Effective(core, st).patchCount <= count + 1
  {}

  /** An object read from a fresh start is applied, or waits to be. */
  lemma FreshItem<S, P>(core: Core<S, P>, st: State<S>, item: Item)
    requires WellFormed(st) && st.inFence && st.held == NOTHING && GoodItem(core, item)
    ensures var later := ProcessLines(core, st, item.lines);
            && Between(later) && SameBlock(st, later) && (later.held == NOTHING <==> !item.layout.cut)
            && (item.layout.cut ==> later.segments == st.segments)
            && Effective(core, later) == Applied(core, st.segments[st.active], Print(item.layout.v))
  {
    var o := item.layout;
    assert "" + JoinLines(item.lines) == JoinLines(item.lines);
    ReadWhole(core, st, o, "", item.lines);
    if o.cut {
      CutIsOpen(o);
      OpenAbsorbed(core, st, o.Text() + "\n", Print(o.v));
    } else {
      PrintParts(o.v);
      ReadAtOnce(core, st, Print(o.v));
    }
  }

  lemma ReadAtOnce<S, P>(core: Core<S, P>, st: State<S>, raw: string)
    requires WellFormed(st) && st.inFence && st.held == NOTHING && raw != ""
    ensures var later := ApplyRaw(core, st, raw);
            && WellFormed(later) && SameBlock(st, later) && later.held == NOTHING
            && Effective(core, later) == Applied(core, st.segments[st.active], raw)
  {
    var later := ApplyRaw(core, st, raw);
    SameBlockWellFormed(st, later);
    EffectiveWhenEmpty(core, later);
  }

  /** An object whose first line announces a patch settles what was held, then starts afresh. */
  lemma AnnouncedItem<S, P>(core: Core<S, P>, st: State<S>, item: Item)
    requires Between(st) && GoodItem(core, item) && Announces(item.lines[0])
    ensures var later := ProcessLines(core, st, item.lines);
            && Between(later) && SameBlock(st, later) && (later.held == NOTHING <==> !item.layout.cut)
            && (item.layout.cut ==> Effective(core, later).patchCount == later.segments[later.active].patchCount + 1)
            && Effective(core, later) == Applied(core, Effective(core, st), Print(item.layout.v))
  {
    var ready := Settled(core, st);
    SettledIsEmpty(core, st);
    SameBlockWellFormed(st, ready);
    SettledIsEmpty(core, ready);
    SettledTwice(core, st);
    OpLineOnReady(core, st, item.lines[0], true);
    OpLineOnReady(core, ready, item.lines[0], true);
    FreshItem(core, ready, item);
  }

  lemma SettledTwice<S, P>(core: Core<S, P>, st: State<S>)
    requires WellFormed(st) && st.inFence
    ensures Settled(core, Settled(core, st)) == Settled(core, st)
  {
    SettledIsEmpty(core, st);
    NothingIsEmpty();
  }

  // ---- an object that is taken for the rest of the one before -------------

  /** A line that continues an open text of positive depth is only held. */
  lemma LineSwallowed<S, P>(core: Core<S, P>, st: State<S>, line: string)
    requires WellFormed(st) && st.inFence && st.held != NOTHING && !Announces(line) && !ClosesFence(line)
    requires Run(st.held.scan, line + "\n").depth >= 1
    ensures var text := st.held.text + (line + "\n");
            var later := ProcessLine(core, st, line, true);
            later == st.(held := Held(text, Run(FRESH, text))) && WellFormed(later) && later.held != NOTHING
  {
    RunConcat(FRESH, st.held.text, line + "\n");
    LineFed(core, st, st.held.text, line);
    HeldAfterFeeding(st.held, line, true);
  }

  /** The lines of an object still to come after `done`, none of which announces a patch, are only held. */
  lemma {:induction false} LinesSwallowed<S, P>(core: Core<S, P>, st: State<S>, s: Scan, o: Layout, done: string,
                                               lines: seq<string>)
    requires WellFormed(st) && st.inFence && st.held != NOTHING
    requires Outside(s) && s.depth >= 1 && st.held.scan == Run(s, done)
    requires Remaining(o, done, lines) && forall i | 0 <= i < |lines| :: !Announces(lines[i])
    ensures var later := ProcessLines(core, st, lines);
            && WellFormed(later) && later.held != NOTHING && later == st.(held := later.held)
            && later.held.scan == Run(s, o.Text() + "\n")
    decreases |lines|
  {
    if lines == [] {
      AllRead(o, done, lines);
    } else {
      var next := done + (lines[0] + "\n");
      NoLineCloses(o, done, lines);
      Advance(o, done, lines);
      StillDeep(s, o, next, lines[1..]);
      RunConcat(s, done, lines[0] + "\n");
      LineSwallowed(core, st, lines[0]);
      RunConcat(FRESH, st.held.text, lines[0] + "\n");
      assert forall i | 0 <= i < |lines[1..]| :: lines[1..][i] == lines[i + 1];
      LinesSwallowed(core, ProcessLine(core, st, lines[0], true), s, o, next, lines[1..]);
    }
  }

  lemma StillDeep(s: Scan, o: Layout, done: string, lines: seq<string>)
    requires Outside(s) && Remaining(o, done, lines)
    ensures Run(s, done).depth >= s.depth
  {
    TextScan(s, o);
    var all := o.Text() + "\n";
    assert all[..|done|] == done;
    StaysAbovePrefix(s, all, s.depth, |done|);
  }

  /** An object that follows an open one without announcing itself disappears into it. */
  lemma SwallowedItem<S, P>(core: Core<S, P>, st: State<S>, item: Item)
    requires Between(st) && st.held != NOTHING && GoodItem(core, item) && !Announces(item.lines[0])
    ensures var later := ProcessLines(core, st, item.lines);
            Between(later) && later.held != NOTHING && later == st.(held := later.held)
  {
    var s, o := st.held.scan, item.layout;
    LinesSwallowed(core, st, s, o, "", item.lines);
    TextScan(s, o);
    var all := o.Text() + "\n";
    assert all[..|all|] == all;
    StaysAbovePrefix(s, all, s.depth, |all|);
  }

  // ---- all objects --------------------------------------------------------

  /** Every object that follows one without its final brace announces itself on its first line; `open`
      says whether such a one comes before the first. */
  predicate Heralded(open: bool, items: seq<Item>)
    decreases |items|
  {
    items == []
    || ((open ==> items[0].lines != [] && Announces(items[0].lines[0])) && Heralded(items[0].layout.cut, items[1..]))
  }

  lemma OneItem<S, P>(core: Core<S, P>, st: State<S>, item: Item)
    requires Between(st) && GoodItem(core, item)
    ensures var later := ProcessLines(core, st, item.lines);
            && Between(later) && SameBlock(st, later)
            && Effective(core, later).patchCount <= Effective(core, st).patchCount + 1
  {
    EffectiveAddsOne(core, st);
    if st.held == NOTHING {
      EffectiveWhenEmpty(core, st);
      FreshItem(core, st, item);
    } else if Announces(item.lines[0]) {
      AnnouncedItem(core, st, item);
    } else {
      SwallowedItem(core, st, item);
      EffectiveAddsOne(core, ProcessLines(core, st, item.lines));
    }
  }

  /** No object adds more than one patch, whatever is held. */
  lemma {:induction false} AtMostOneEach<S, P>(core: Core<S, P>, st: State<S>, items: seq<Item>)
    requires Between(st) && GoodItems(core, items)
    ensures var later := ProcessLines(core, st, LinesOfAll(items));
            && Between(later) && SameBlock(st, later)
            && Effective(core, later).patchCount <= Effective(core, st).patchCount + |items|
    decreases |items|
  {
    if items != [] {
      assert GoodItem(core, items[0]);
      RestIsGood(core, items);
      OneItem(core, st, items[0]);
      LinesConcat(core, st, items[0].lines, LinesOfAll(items[1..]));
      AtMostOneEach(core, ProcessLines(core, st, items[0].lines), items[1..]);
    }
  }

  /** What is held, if anything, is an object that can be rescued. */
  ghost predicate Rescuable<S, P>(core: Core<S, P>, st: State<S>) {
    Between(st)
    && (st.held != NOTHING ==> Effective(core, st).patchCount == st.segments[st.active].patchCount + 1)
  }

  lemma HeraldedItem<S, P>(core: Core<S, P>, st: State<S>, item: Item)
    requires Rescuable(core, st) && GoodItem(core, item) && (st.held != NOTHING ==> Announces(item.lines[0]))
    ensures var later := ProcessLines(core, st, item.lines);
            && Rescuable(core, later) && SameBlock(st, later) && (later.held != NOTHING <==> item.layout.cut)
            && Effective(core, later) == Applied(core, Effective(core, st), Print(item.layout.v))
  {
    if st.held == NOTHING {
      EffectiveWhenEmpty(core, st);
      FreshItem(core, st, item);
    } else {
      AnnouncedItem(core, st, item);
    }
  }

  /** An object that disappears into the one before loses a patch that no later object makes up for. */
  lemma SwallowedLoses<S, P>(core: Core<S, P>, st: State<S>, items: seq<Item>)
    requires Rescuable(core, st) && GoodItems(core, items) && items != []
    requires st.held != NOTHING && !Announces(items[0].lines[0])
    ensures var later := ProcessLines(core, st, LinesOfAll(items));
            && Between(later) && SameBlock(st, later)
            && Effective(core, later).patchCount < Effective(core, st).patchCount + |items|
  {
    var next := ProcessLines(core, st, items[0].lines);
    assert GoodItem(core, items[0]);
    RestIsGood(core, items);
    LinesConcat(core, st, items[0].lines, LinesOfAll(items[1..]));
    SwallowedItem(core, st, items[0]);
    EffectiveAddsOne(core, next);
    AtMostOneEach(core, next, items[1..]);
  }

  lemma {:induction false} ItemsApplied<S, P>(core: Core<S, P>, st: State<S>, items: seq<Item>)
    requires Rescuable(core, st) && GoodItems(core, items)
    ensures var later := ProcessLines(core, st, LinesOfAll(items));
            && Between(later) && SameBlock(st, later)
            && if Heralded(st.held != NOTHING, items)
               then Effective(core, later) == AllApplied(core, Effective(core, st), items)
               else Effective(core, later).patchCount < Effective(core, st).patchCount + |items|
    decreases |items|
  {
    if items != [] {
      assert GoodItem(core, items[0]);
      if st.held != NOTHING && !Announces(items[0].lines[0]) {
        SwallowedLoses(core, st, items);
      } else {
        RestIsGood(core, items);
        LinesConcat(core, st, items[0].lines, LinesOfAll(items[1..]));
        HeraldedItem(core, st, items[0]);
        ItemsApplied(core, ProcessLines(core, st, items[0].lines), items[1..]);
      }
    }
  }

  /** A block gives the spec and the patch count of all of its objects exactly when each object after one
      that lost its final brace announces itself on its first line. */
  lemma BlockRecoveredExactlyWhenHeralded<S, P>(core: Core<S, P>, st: State<S>, items: seq<Item>)
    requires WellFormed(st) && st.inFence && st.held == NOTHING && GoodItems(core, items)
    ensures var later := ProcessLines(core, st, LinesOfAll(items));
            && WellFormed(later) && SameBlock(st, later)
            && (Effective(core, later) == AllApplied(core, st.segments[st.active], items) <==> Heralded(false, items))
  {
    EffectiveWhenEmpty(core, st);
    ItemsApplied(core, st, items);
    AllAppliedCounts(core, st.segments[st.active], items);
  }

  // ---- a last line without its newline ------------------------------------

  /** The same state, but for a newline at the end of what is held. */
  ghost predicate SameButNewline<S>(without: State<S>, with: State<S>) {
    && without.inFence && with.inFence && without.active == with.active && without.segments == with.segments
    && if without.held == NOTHING then with.held == NOTHING
       else StartsOpen(without.held.text) && with.held == Held(without.held.text + "\n", without.held.scan)
  }

  lemma NewlineIsSpace(text: string)
    requires StartsOpen(text)
    ensures Trim(text + "\n") == Trim(text) != "" && TrimEnd(text + "\n") == TrimEnd(text)
  {
    TrimBlank(text);
    TrimStartExtends(text, "\n");
    TrimEndIgnoresTail(TrimStart(text), "\n");
    TrimEndIgnoresTail(text, "\n");
  }

  lemma NewlineScan(text: string)
    ensures Run(FRESH, text + "\n").inString == Run(FRESH, text).inString
    ensures !Run(FRESH, text).inString ==> Run(FRESH, text + "\n") == Run(FRESH, text)
    ensures Run(FRESH, text + "\n").depth == Run(FRESH, text).depth
  {
    RunSnoc(FRESH, text, '\n');
    EscapesInStrings(FRESH, text);
  }

  lemma AbsorbsWithScan<S, P>(core: Core<S, P>, st: State<S>, text: string, scan: Scan)
    requires st.inFence && StartsOpen(text)
    ensures SameButNewline(Absorb(core, st.(held := Held(text, scan))),
                           Absorb(core, st.(held := Held(text + "\n", scan))))
  {
    NewlineIsSpace(text);
  }

  lemma AbsorbsInString<S, P>(core: Core<S, P>, st: State<S>, text: string, scan: Scan, later: Scan)
    requires st.inFence && StartsOpen(text) && scan.inString && later.inString && scan.depth == later.depth
    requires var with := Absorb(core, st.(held := Held(text + "\n", later)));
             with.held != NOTHING ==> Outside(with.held.scan)
    ensures SameButNewline(Absorb(core, st.(held := Held(text, scan))),
                           Absorb(core, st.(held := Held(text + "\n", later))))
  {
    NewlineIsSpace(text);
    assert Held(text + "\n", later) != NOTHING;
  }

  lemma AbsorbsAlike<S, P>(core: Core<S, P>, st: State<S>, text: string)
    requires st.inFence && StartsOpen(text)
    requires var with := Absorb(core, st.(held := Held(text + "\n", Run(FRESH, text + "\n"))));
             with.held != NOTHING ==> Outside(with.held.scan)
    ensures SameButNewline(Absorb(core, st.(held := Held(text, Run(FRESH, text)))),
                           Absorb(core, st.(held := Held(text + "\n", Run(FRESH, text + "\n")))))
  {
    NewlineScan(text);
    var scan, later := Run(FRESH, text), Run(FRESH, text + "\n");
    if scan.inString {
      AbsorbsInString(core, st, text, scan, later);
    } else {
      AbsorbsWithScan(core, st, text, scan);
    }
  }

  /** A line that is skipped or reported is so with and without its newline. */
  lemma UnfedAlike<S, P>(core: Core<S, P>, st: State<S>, line: string)
    requires WellFormed(st) && st.inFence && !ClosesFence(line) && !Feeds(core, st, line)
    ensures SameButNewline(ProcessLine(core, st, line, false), ProcessLine(core, st, line, true))
  {
    GiveUpStays(core, st, Truncated);
    NothingIsEmpty();
    assert st.held != NOTHING ==> !IsEmpty(st.held);
  }

  lemma FedLine<S, P>(core: Core<S, P>, st: State<S>, line: string, hadNewline: bool)
    requires WellFormed(st) && st.inFence && !ClosesFence(line) && Feeds(core, st, line)
    ensures var ready := Ready(core, st, Trim(line));
            var text := ready.held.text + Physical(line, hadNewline);
            && ready.inFence && StartsOpen(text)
            && ProcessLine(core, st, line, hadNewline)
               == Absorb(core, ready.(held := Held(text, Run(FRESH, text))))
  {
    GiveUpStays(core, st, Truncated);
    NothingIsEmpty();
    HeldAfterFeeding(Ready(core, st, Trim(line)).held, line, hadNewline);
  }

  lemma FedAlike<S, P>(core: Core<S, P>, st: State<S>, line: string)
    requires WellFormed(st) && st.inFence && !ClosesFence(line) && Feeds(core, st, line)
    requires Between(ProcessLine(core, st, line, true))
    ensures SameButNewline(ProcessLine(core, st, line, false), ProcessLine(core, st, line, true))
  {
    FedLine(core, st, line, false);
    FedLine(core, st, line, true);
    var ready := Ready(core, st, Trim(line));
    assert ready.held.text + (line + "\n") == (ready.held.text + line) + "\n";
    AbsorbsAlike(core, ready, ready.held.text + line);
  }

  lemma EmptyLineFeeds<S, P>(core: Core<S, P>, st: State<S>)
    requires WellFormed(st) && st.inFence && st.held != NOTHING
    ensures !ClosesFence("") && Feeds(core, st, "") && Ready(core, st, Trim("")) == st
    ensures Absorb(core, st) == st && st.held == Held(st.held.text, Run(FRESH, st.held.text))
  {
    assert Trim("") == "";
  }

  /** An empty last line, which the end of input does not process. */
  lemma EmptyLineAlike<S, P>(core: Core<S, P>, st: State<S>)
    requires WellFormed(st) && st.inFence && Between(ProcessLine(core, st, "", true))
    ensures SameButNewline(st, ProcessLine(core, st, "", true))
  {
    if st.held == NOTHING {
      NothingIsEmpty();
    } else {
      EmptyLineFeeds(core, st);
      FedLine(core, st, "", true);
      assert "" + "\n" == "\n";
      AbsorbsAlike(core, st, st.held.text);
    }
  }

  lemma GiveUpSame<S, P>(core: Core<S, P>, a: State<S>, b: State<S>)
    requires a.segments == b.segments && a.active == b.active && a.held.scan == b.held.scan
    requires Repaired(a.held.text, a.held.scan) == Repaired(b.held.text, b.held.scan)
    ensures GiveUp(core, a, Unterminated).segments == GiveUp(core, b, Unterminated).segments
  {}

  lemma GiveUpAlike<S, P>(core: Core<S, P>, without: State<S>, with: State<S>)
    requires SameButNewline(without, with)
    ensures GiveUp(core, without, Unterminated).segments == GiveUp(core, with, Unterminated).segments
    ensures IsEmpty(without.held) == IsEmpty(with.held)
  {
    if without.held != NOTHING {
      NewlineIsSpace(without.held.text);
    }
    GiveUpSame(core, without, with);
  }

  /** The end of input gives the same segments whether or not the last line has its newline. */
  lemma LastNewlineDoesNotMatter<S, P>(core: Core<S, P>, st: State<S>, line: string)
    requires WellFormed(st) && st.inFence && !ClosesFence(line) && Between(ProcessLine(core, st, line, true))
    ensures Flush(core, Parser(st, line), true).state.segments
         == Flush(core, Parser(ProcessLine(core, st, line, true), ""), true).state.segments
  {
    if line == "" {
      EmptyLineAlike(core, st);
      GiveUpAlike(core, st, ProcessLine(core, st, line, true));
    } else {
      if Feeds(core, st, line) {
        FedAlike(core, st, line);
      } else {
        UnfedAlike(core, st, line);
      }
      GiveUpAlike(core, ProcessLine(core, st, line, false), ProcessLine(core, st, line, true));
    }
  }

  // ---- whole messages -----------------------------------------------------

  /** A block ends on its closing marker, or with the stream, after its last newline or just before. */
  datatype End = AtMarker | AfterNewline | BeforeNewline

  /** The opening marker, complete lines and a partial one. */
  function Block(lines: seq<string>, last: string): string {
    SPEC_FENCE_OPEN + "\n" + (JoinLines(lines) + last)
  }

  function ItemsMessage(items: seq<Item>, end: End): string
    requires end.BeforeNewline? ==> LinesOfAll(items) != []
  {
    var lines := LinesOfAll(items);
    match end
    case AtMarker => Block(lines, SPEC_FENCE_CLOSE)
    case AfterNewline => Block(lines, "")
    case BeforeNewline => Block(lines[..|lines| - 1], lines[|lines| - 1])
  }

  lemma {:induction false} ItemLines<S, P>(core: Core<S, P>, items: seq<Item>)
    requires GoodItems(core, items)
    ensures forall i | 0 <= i < |LinesOfAll(items)| ::
              NoNewline(LinesOfAll(items)[i]) && !ClosesFence(LinesOfAll(items)[i])
    decreases |items|
  {
    if items != [] {
      assert GoodItem(core, items[0]);
      NoneCloses(items[0].layout, "", items[0].lines);
      RestIsGood(core, items);
      ItemLines(core, items[1..]);
      Either(items[0].lines, LinesOfAll(items[1..]));
    }
  }

  lemma Either(a: seq<string>, b: seq<string>)
    ensures forall i | 0 <= i < |a + b| :: (a + b)[i] in a || (a + b)[i] in b
  {}

  /** The state after the opening marker and complete lines. */
  function AfterLines<S, P>(core: Core<S, P>, lines: seq<string>): State<S> {
    var start: Parser<S> := Initial();
    ProcessLines(core, OpenSpec(core, start.state), lines)
  }

  /** A message that is a block with complete lines `lines` and the partial line `last`. */
  lemma BlockPushed<S, P>(core: Core<S, P>, lines: seq<string>, last: string)
    requires NoNewline(last) && forall i | 0 <= i < |lines| :: NoNewline(lines[i])
    ensures Push(core, Initial(), Block(lines, last))
         == Parser(AfterLines(core, lines), last)
  {
    var start: Parser<S> := Initial();
    MessageSplits(SPEC_FENCE_OPEN, lines, last);
    OpeningLine(core, start.state, lines);
  }

  lemma MessageSplits(first: string, lines: seq<string>, last: string)
    requires NoNewline(first) && NoNewline(last) && forall i | 0 <= i < |lines| :: NoNewline(lines[i])
    ensures SplitLines("" + (first + "\n" + (JoinLines(lines) + last))) == Split([first] + lines, last)
  {
    var rest := JoinLines(lines) + last;
    SplitOfJoin(lines, last);
    SplitAt(first, rest);
    assert "" + (first + "\n" + rest) == first + "\n" + rest;
  }

  lemma {:induction false} StaysInBlock<S, P>(core: Core<S, P>, st: State<S>, lines: seq<string>)
    requires WellFormed(st) && st.inFence && forall i | 0 <= i < |lines| :: !ClosesFence(lines[i])
    ensures WellFormed(ProcessLines(core, st, lines)) && ProcessLines(core, st, lines).inFence
    decreases |lines|
  {
    if lines != [] {
      LineKeeps(core, st, lines[0], true);
      PatchLineStays(core, st, lines[0], true);
      StaysInBlock(core, ProcessLine(core, st, lines[0], true), lines[1..]);
    }
  }

  lemma AfterLast<S, P>(core: Core<S, P>, lines: seq<string>, last: string)
    ensures AfterLines(core, lines + [last]) == ProcessLine(core, AfterLines(core, lines), last, true)
  {
    var start: Parser<S> := Initial();
    LinesConcat(core, OpenSpec(core, start.state), lines, [last]);
    assert [last][1..] == [];
  }

  lemma AfterLinesInBlock<S, P>(core: Core<S, P>, lines: seq<string>)
    requires forall i | 0 <= i < |lines| :: !ClosesFence(lines[i])
    ensures WellFormed(AfterLines(core, lines)) && AfterLines(core, lines).inFence
  {
    var start: Parser<S> := Initial();
    OpenKeeps(core, start.state);
    StaysInBlock(core, OpenSpec(core, start.state), lines);
  }

  /** Ending the block without its last newline gives the same segments. */
  lemma BeforeLastNewline<S, P>(core: Core<S, P>, lines: seq<string>, last: string)
    requires forall i | 0 <= i < |lines| :: !ClosesFence(lines[i])
    requires !ClosesFence(last) && Between(AfterLines(core, lines + [last]))
    ensures Flush(core, Parser(AfterLines(core, lines), last), true).state.segments
         == Flush(core, Parser(AfterLines(core, lines + [last]), ""), true).state.segments
  {
    AfterLast(core, lines, last);
    AfterLinesInBlock(core, lines);
    LastNewlineDoesNotMatter(core, AfterLines(core, lines), last);
  }

  lemma EndsAtMarker<S, P>(core: Core<S, P>, lines: seq<string>, final: bool)
    requires forall i | 0 <= i < |lines| :: NoNewline(lines[i])
    requires var st := AfterLines(core, lines); WellFormed(st) && st.inFence && |st.segments| == 1
    ensures var block := Effective(core, AfterLines(core, lines));
            ParseMessage(core, Block(lines, SPEC_FENCE_CLOSE), final).segments
            == [block.(closed := true)]
  {
    BlockPushed(core, lines, SPEC_FENCE_CLOSE);
    EndSettles(core, AfterLines(core, lines), Closed, final);
  }

  lemma EndsWithStream<S, P>(core: Core<S, P>, st: State<S>)
    requires WellFormed(st) && st.inFence && |st.segments| == 1
    ensures Flush(core, Parser(st, ""), true).state.segments == [Effective(core, st)]
  {
    EndSettles(core, st, EndOfStream, true);
  }

  lemma EndsAfterNewline<S, P>(core: Core<S, P>, lines: seq<string>)
    requires forall i | 0 <= i < |lines| :: NoNewline(lines[i])
    requires var st := AfterLines(core, lines); WellFormed(st) && st.inFence && |st.segments| == 1
    ensures ParseMessage(core, Block(lines, ""), true).segments
         == [Effective(core, AfterLines(core, lines))]
  {
    BlockPushed(core, lines, "");
    EndsWithStream(core, AfterLines(core, lines));
  }

  lemma EndsBeforeNewline<S, P>(core: Core<S, P>, lines: seq<string>, last: string)
    requires NoNewline(last) && !ClosesFence(last)
    requires forall i | 0 <= i < |lines| :: NoNewline(lines[i]) && !ClosesFence(lines[i])
    requires var st := AfterLines(core, lines + [last]); Between(st) && |st.segments| == 1
    ensures ParseMessage(core, Block(lines, last), true).segments
         == [Effective(core, AfterLines(core, lines + [last]))]
  {
    BlockPushed(core, lines, last);
    BeforeLastNewline(core, lines, last);
    EndsWithStream(core, AfterLines(core, lines + [last]));
  }

  /** The block that a message ends in, with whatever can be rescued. */
  lemma MessageEnds<S, P>(core: Core<S, P>, items: seq<Item>, end: End, final: bool)
    requires GoodItems(core, items) && (end.AtMarker? || final)
    requires end.BeforeNewline? ==> LinesOfAll(items) != []
    requires var st := AfterLines(core, LinesOfAll(items)); Between(st) && |st.segments| == 1
    ensures var block := Effective(core, AfterLines(core, LinesOfAll(items)));
            ParseMessage(core, ItemsMessage(items, end), final).segments == [block.(closed := end.AtMarker?)]
  {
    var lines := LinesOfAll(items);
    OpenBlock(core, AfterLines(core, lines));
    ItemLines(core, items);
    match end
    case AtMarker => EndsAtMarker(core, lines, final);
    case AfterNewline => EndsAfterNewline(core, lines);
    case BeforeNewline => EndsBeforeLast(core, lines);
  }

  lemma EndsBeforeLast<S, P>(core: Core<S, P>, lines: seq<string>)
    requires lines != [] && forall i | 0 <= i < |lines| :: NoNewline(lines[i]) && !ClosesFence(lines[i])
    requires var st := AfterLines(core, lines); Between(st) && |st.segments| == 1
    ensures ParseMessage(core, Block(lines[..|lines| - 1], lines[|lines| - 1]), true).segments
         == [Effective(core, AfterLines(core, lines))]
  {
    var n := |lines| - 1;
    assert lines == lines[..n] + [lines[n]];
    EndsBeforeNewline(core, lines[..n], lines[n]);
  }

  lemma OpenBlock<S, P>(core: Core<S, P>, st: State<S>)
    requires WellFormed(st) && st.inFence
    ensures !Effective(core, st).closed
  {
    SettledIsEmpty(core, st);
  }

  lemma BlockStarts<S, P>(core: Core<S, P>)
    ensures var start: Parser<S> := Initial();
            var begun := OpenSpec(core, start.state);
            && WellFormed(begun) && begun.inFence && begun.held == NOTHING
            && begun.segments == [SpecSegment(core.empty, 0, false)] && begun.active == 0
  {
    var start: Parser<S> := Initial();
    OpenKeeps(core, start.state);
  }

  /** What the whole block amounts to. */
  function WholeBlock<S, P>(core: Core<S, P>, items: seq<Item>, closed: bool): Segment<S> {
    var block := AllApplied(core, SpecSegment(core.empty, 0, false), items);
    block.(closed := closed)
  }

  /** A message that is a block of patch objects, however it ends, gives the spec and the patch count of
      all of them exactly when each object after one that lost its final brace announces itself. */
  lemma MessageRecoveredExactlyWhenHeralded<S, P>(core: Core<S, P>, items: seq<Item>, end: End, final: bool)
    requires GoodItems(core, items) && (end.AtMarker? || final)
    requires end.BeforeNewline? ==> LinesOfAll(items) != []
    ensures ParseMessage(core, ItemsMessage(items, end), final).segments
            == [WholeBlock(core, items, end.AtMarker?)]
       <==> Heralded(false, items)
  {
    var start: Parser<S> := Initial();
    var begun, st := OpenSpec(core, start.state), AfterLines(core, LinesOfAll(items));
    BlockStarts(core);
    BlockRecoveredExactlyWhenHeralded(core, begun, items);
    AtMostOneEach(core, begun, items);
    OpenBlock(core, st);
    MessageEnds(core, items, end, final);
  }
}
