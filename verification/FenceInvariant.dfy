/** What every line keeps true of the parser state, and which segments it can still touch. */
module FenceInvariant {
  import opened Text
  import opened PatchAccumulators
  import opened FenceSpec

  /** Nothing, or an open patch: text that starts with an opening brace, scanned from a fresh start,
      neither complete nor beyond repair by more input. */
  predicate HeldOk(h: Held) {
    || h == NOTHING
    || (StartsOpen(h.text) && h.scan == Run(FRESH, h.text) && !IsComplete(h.scan) && h.scan.depth >= 0)
  }

  /** Prose runs are maximal and never empty. */
  predicate MaximalText<S>(segments: seq<Segment<S>>) {
    && (forall i | 0 <= i < |segments| :: segments[i].TextSegment? ==> segments[i].text != "")
    && forall i, j | 0 <= i < |segments| && j == i + 1 < |segments| ::
         !(segments[i].TextSegment? && segments[j].TextSegment?)
  }

  predicate ClosedBefore<S>(segments: seq<Segment<S>>, n: int) {
    forall i | 0 <= i < |segments| && i < n :: segments[i].SpecSegment? ==> segments[i].closed
  }

  /** The block being filled is the last segment, the only one not closed; outside a fence every
      block is closed and no patch is open. */
  predicate WellFormed<S>(st: State<S>) {
    && HeldOk(st.held) && MaximalText(st.segments)
    && (if st.inFence then
          && st.active == |st.segments| - 1 && OnSpec(st) && !st.segments[st.active].closed
          && ClosedBefore(st.segments, st.active)
        else
          st.active == -1 && st.held == NOTHING && ClosedBefore(st.segments, |st.segments|))
  }

  /** How many leading segments no later line can change. */
  function Frozen<S>(st: State<S>): nat {
    var n := |st.segments|;
    if n > 0 && (st.inFence || st.segments[n - 1].TextSegment?) then n - 1 else n
  }

  ghost predicate Keeps<S>(st: State<S>, later: State<S>) {
    && |st.segments| <= |later.segments| && Frozen(st) <= Frozen(later)
    && forall i | 0 <= i < Frozen(st) :: later.segments[i] == st.segments[i]
  }

  lemma KeepsTransitive<S>(a: State<S>, b: State<S>, c: State<S>)
    requires Keeps(a, b) && Keeps(b, c)
    ensures Keeps(a, c)
  {}

  /** Filling the active block: nothing but that block's patches changes. */
  ghost predicate SameBlock<S>(st: State<S>, later: State<S>) {
    && st.inFence && later.inFence && later.active == st.active
    && |later.segments| == |st.segments| && OnSpec(st) && OnSpec(later)
    && later.segments[st.active].closed == st.segments[st.active].closed
    && forall i | 0 <= i < |st.segments| && i != st.active :: later.segments[i] == st.segments[i]
  }

  lemma GiveUpStays<S, P>(core: Core<S, P>, st: State<S>, complaint: Complaint)
    requires WellFormed(st) && st.inFence
    ensures var later := GiveUp(core, st, complaint);
            SameBlock(st, later) && later.held == NOTHING
  {}

  lemma HeldAfterFeeding(h: Held, line: string, hadNewline: bool)
    requires HeldOk(h) && (h != NOTHING || "{" <= Trim(line))
    ensures var fed := Fed(h, Physical(line, hadNewline));
            StartsOpen(fed.text) && fed.scan == Run(FRESH, fed.text)
  {
    var physical := Physical(line, hadNewline);
    if h == NOTHING {
      assert "" + physical == physical;
      MarkerPersists(line, if hadNewline then "\n" else "", "{");
      assert line + "" == line;
    } else {
      MarkerPersists(h.text, physical, "{");
      RunConcat(FRESH, h.text, physical);
    }
  }

  lemma AbsorbStays<S, P>(core: Core<S, P>, fed: State<S>)
    requires fed.inFence && OnSpec(fed)
    requires StartsOpen(fed.held.text) && fed.held.scan == Run(FRESH, fed.held.text)
    ensures SameBlock(fed, Absorb(core, fed)) && HeldOk(Absorb(core, fed).held)
  {}

  lemma PatchLineStays<S, P>(core: Core<S, P>, st: State<S>, line: string, hadNewline: bool)
    requires WellFormed(st) && st.inFence
    ensures var later := ApplyPatchLine(core, st, line, hadNewline);
            SameBlock(st, later) && HeldOk(later.held)
  {
    var trimmed := Trim(line);
    if !(IsEmpty(st.held) && trimmed == "") {
      GiveUpStays(core, st, Truncated);
      var ready := Ready(core, st, trimmed);
      assert SameBlock(st, ready) && HeldOk(ready.held);
      assert IsEmpty(NOTHING) by { assert Blank(""); TrimBlank(""); }
      if !(IsEmpty(ready.held) && !("{" <= trimmed)) {
        HeldAfterFeeding(ready.held, line, hadNewline);
        AbsorbStays(core, ready.(held := Fed(ready.held, Physical(line, hadNewline))));
      }
    }
  }

  lemma SameBlockWellFormed<S>(st: State<S>, later: State<S>)
    requires WellFormed(st) && SameBlock(st, later) && HeldOk(later.held)
    ensures WellFormed(later) && Keeps(st, later)
  {}

  lemma OpenKeeps<S, P>(core: Core<S, P>, st: State<S>)
    requires WellFormed(st) && !st.inFence
    ensures WellFormed(OpenSpec(core, st)) && Keeps(st, OpenSpec(core, st))
  {}

  lemma CloseKeeps<S, P>(core: Core<S, P>, st: State<S>)
    requires WellFormed(st) && st.inFence
    ensures WellFormed(CloseSpec(core, st)) && Keeps(st, CloseSpec(core, st))
  {
    GiveUpStays(core, st, ClosedMidPatch);
    var done := (if MidPatch(st) then GiveUp(core, st, ClosedMidPatch) else st).(held := NOTHING);
    assert SameBlock(st, done);
    var closed := CloseSpec(core, st);
    assert closed.segments == done.segments[done.active := done.segments[done.active].(closed := true)];
  }

  lemma AppendKeeps<S>(st: State<S>, text: string)
    requires WellFormed(st) && !st.inFence
    ensures WellFormed(AppendText(st, text)) && Keeps(st, AppendText(st, text))
  {}

  /** Every line keeps the state well formed and leaves the frozen segments alone. */
  lemma LineKeeps<S, P>(core: Core<S, P>, st: State<S>, line: string, hadNewline: bool)
    requires WellFormed(st)
    ensures WellFormed(ProcessLine(core, st, line, hadNewline))
    ensures Keeps(st, ProcessLine(core, st, line, hadNewline))
  {
    if !st.inFence && OpensFence(line) {
      OpenKeeps(core, st);
    } else if st.inFence && ClosesFence(line) {
      CloseKeeps(core, st);
    } else if st.inFence {
      PatchLineStays(core, st, line, hadNewline);
      SameBlockWellFormed(st, ApplyPatchLine(core, st, line, hadNewline));
    } else {
      AppendKeeps(st, Physical(line, hadNewline));
    }
  }

  lemma {:induction false} LinesKeep<S, P>(core: Core<S, P>, st: State<S>, lines: seq<string>)
    requires WellFormed(st)
    ensures WellFormed(ProcessLines(core, st, lines))
    ensures Keeps(st, ProcessLines(core, st, lines))
    decreases |lines|
  {
    if lines != [] {
      var next := ProcessLine(core, st, lines[0], true);
      LineKeeps(core, st, lines[0], true);
      LinesKeep(core, next, lines[1..]);
      KeepsTransitive(st, next, ProcessLines(core, next, lines[1..]));
    }
  }

  /** The end of input changes at most the block still open. */
  lemma SettleKeeps<S, P>(core: Core<S, P>, st: State<S>, final: bool)
    requires WellFormed(st)
    ensures var done := Flush(core, Parser(st, ""), final).state;
            && |done.segments| == |st.segments| && MaximalText(done.segments)
            && ClosedBefore(done.segments, |done.segments| - 1)
            && forall i | 0 <= i < Frozen(st) :: done.segments[i] == st.segments[i]
  {
    if st.inFence {
      GiveUpStays(core, st, Unterminated);
    } else {
      assert Blank("");
      TrimBlank("");
    }
  }

  // ---- what an accumulator ever holds -------------------------------------

  /** Whether a line of a block is fed to the accumulator, rather than skipped or reported. */
  predicate Feeds<S, P>(core: Core<S, P>, st: State<S>, line: string) {
    && !(IsEmpty(st.held) && Trim(line) == "")
    && !(IsEmpty(Ready(core, st, Trim(line)).held) && !("{" <= Trim(line)))
  }

  /** On every reachable state, the text in an accumulator that was just fed starts with an opening
      brace: its depth was positive before it could complete. */
  lemma CompletionComesAfterRise<S, P>(core: Core<S, P>, lines: seq<string>, line: string, hadNewline: bool)
    requires var start: Parser<S> := Initial();
             var st := ProcessLines(core, start.state, lines);
             st.inFence && !ClosesFence(line) && Feeds(core, st, line)
    ensures var start: Parser<S> := Initial();
            var st := ProcessLines(core, start.state, lines);
            var ready := Ready(core, st, Trim(line));
            var fed := Fed(ready.held, Physical(line, hadNewline));
            && ProcessLine(core, st, line, hadNewline) == Absorb(core, ready.(held := fed))
            && fed.scan == Run(FRESH, fed.text)
            && exists k :: 0 <= k <= |fed.text| && Run(FRESH, fed.text[..k]).depth > 0
  {
    var start: Parser<S> := Initial();
    var st := ProcessLines(core, start.state, lines);
    LinesKeep(core, start.state, lines);
    GiveUpStays(core, st, Truncated);
    var ready := Ready(core, st, Trim(line));
    assert IsEmpty(NOTHING) by { assert Blank(""); TrimBlank(""); }
    HeldAfterFeeding(ready.held, line, hadNewline);
    var fed := Fed(ready.held, Physical(line, hadNewline));
    StartsOpenRises(fed.text);
    RisesAtSomePrefix(fed.text);
  }

  /** While a message streams in, a block that is not the last segment is closed, prose segments
      are never adjacent and never empty. */
  lemma StreamedShape<S, P>(core: Core<S, P>, message: string, final: bool)
    ensures WellFormed(Push(core, Initial(), message).state)
    ensures var segments := ParseMessage(core, message, final).segments;
            MaximalText(segments) && ClosedBefore(segments, |segments| - 1)
  {
    var start: Parser<S> := Initial();
    var p := Push(core, start, message);
    LinesKeep(core, start.state, SplitLines(start.buffer + message).lines);
    var st := if p.buffer == "" then p.state else ProcessLine(core, p.state, p.buffer, false);
    LineKeeps(core, p.state, p.buffer, false);
    SettleKeeps(core, st, final);
  }
}
