/** Patches pretty-printed over several lines: when they are applied whole, and when not. */
module FenceMultiline {
  import opened Text
  import opened PatchAccumulators
  import opened JsonText
  import opened FenceSpec
  import opened FenceInvariant
  import opened FenceRecovery

  /** An object's printed form, with or without its final brace, between white space on its first and
      its last line. */
  datatype Layout = Layout(lead: string, v: Json, tail: string, cut: bool) {
    function Shown(): string
      requires v.Object?
    {
      if cut then Body(v) else Print(v)
    }

    function Text(): string
      requires v.Object?
    {
      lead + (Shown() + tail)
    }
  }

  predicate NeatLayout(o: Layout) {
    o.v.Object? && Valid(o.v) && SpaceInLine(o.lead) && SpaceInLine(o.tail)
  }

  /** The physical lines of an object. */
  ghost predicate LinesOf(o: Layout, lines: seq<string>) {
    Remaining(o, "", lines)
  }

  /** What is left of an object's lines after `done` was read. */
  ghost predicate Remaining(o: Layout, done: string, lines: seq<string>) {
    && NeatLayout(o)
    && done + JoinLines(lines) == o.Text() + "\n"
    && (done == "" || done[|done| - 1] == '\n')
    && forall i | 0 <= i < |lines| :: NoNewline(lines[i])
  }

  predicate Announces(line: string) {
    OpPatchLine(Trim(line))
  }

  // ---- the printed form, line by line -------------------------------------

  lemma PrintParts(v: Json)
    requires v.Object?
    ensures Print(v) == Body(v) + "}" && Print(v)[0] == '{'
  {}

  /** Short of its final brace an object is open, neither complete nor beyond repair. */
  lemma PrefixIsOpen(v: Json, k: nat)
    requires v.Object? && Valid(v) && 1 <= k < |Print(v)|
    ensures Run(FRESH, Print(v)[..k]).depth >= 1
  {
    BodyScan("", v);
    var content := v.open + PrintMembers(v.members);
    BodyPrefix(v, content, k);
    StaysAbovePrefix(INNER, content, 1, k - 1);
    OpenedScan(content[..k - 1]);
  }

  lemma BodyPrefix(v: Json, content: string, k: nat)
    requires v.Object? && content == v.open + PrintMembers(v.members) && 1 <= k < |Print(v)|
    ensures k - 1 <= |content| && Print(v)[..k] == ['{'] + content[..k - 1]
  {
    PrintParts(v);
  }

  lemma OpenedScan(content: string)
    ensures Run(FRESH, ['{'] + content) == Run(INNER, content)
  {
    assert (['{'] + content)[1..] == content;
    assert Step(FRESH, '{') == INNER;
  }

  lemma Advance(o: Layout, done: string, lines: seq<string>)
    requires Remaining(o, done, lines) && lines != []
    ensures Remaining(o, done + (lines[0] + "\n"), lines[1..])
  {
    NextText(done, lines[0], JoinLines(lines[1..]));
    assert forall i | 0 <= i < |lines[1..]| :: lines[1..][i] == lines[i + 1];
  }

  lemma NextText(done: string, line: string, rest: string)
    ensures done + (line + "\n" + rest) == done + (line + "\n") + rest
    ensures var next := done + (line + "\n"); next != "" && next[|next| - 1] == '\n'
  {}

  lemma ShownParts(o: Layout)
    requires o.v.Object?
    ensures Body(o.v) <= o.Shown() <= Print(o.v) && o.Shown()[0] == '{'
    ensures !o.cut ==> o.Shown()[|o.Shown()| - 1] == '}'
  {
    PrintParts(o.v);
  }

  /** What was read when lines are left is a proper prefix of the object: it starts open, and is. */
  lemma MoreToCome(o: Layout, done: string, lines: seq<string>)
    requires Remaining(o, done, lines) && lines != [] && done != ""
    ensures StartsOpen(done) && Run(FRESH, done).depth >= 1
  {
    ShownParts(o);
    var k := ProperPrefix(o.lead, o.Shown(), o.tail, done, JoinLines(lines));
    var part := o.Shown()[..k];
    assert part == Print(o.v)[..k];
    WsInert(o.lead);
    SpacesKeepScan(FRESH, o.lead);
    RunConcat(FRESH, o.lead, part);
    PrefixIsOpen(o.v, k);
    BraceOpens(o.lead, part);
  }

  lemma BraceOpens(lead: string, text: string)
    requires Blank(lead) && text != "" && text[0] == '{'
    ensures StartsOpen(lead + text)
  {
    TrimSurrounded(lead, text, "");
    assert lead + text + "" == lead + text;
    TrimBlank(text);
    assert LeadOf(text) == 0 && Trim(text)[0] == text[0];
  }

  /** A line ends inside the object, since there is no newline before or after it. */
  lemma ProperPrefix(lead: string, text: string, tail: string, done: string, rest: string) returns (k: nat)
    requires done + rest == lead + (text + tail) + "\n" && rest != ""
    requires done != "" && done[|done| - 1] == '\n'
    requires NoNewline(lead) && NoNewline(tail) && text != ""
    ensures 1 <= k <= |text| && done == lead + text[..k]
    ensures text[|text| - 1] == '}' ==> k < |text|
  {
    var all := lead + (text + tail) + "\n";
    var n := |done| - 1;
    assert all[n] == done[n] == '\n';
    assert n < |all| - 1;
    assert forall i | 0 <= i < |lead| :: all[i] == lead[i];
    assert forall i | 0 <= i < |tail| :: all[|lead| + |text| + i] == tail[i];
    assert all[|lead| + |text| - 1] == text[|text| - 1];
    k := n + 1 - |lead|;
    assert done == all[..n + 1];
  }

  /** A line of an object starts outside every string. */
  lemma LinesStartOutside(done: string)
    requires Tidy(FRESH, done) && (done == "" || done[|done| - 1] == '\n')
    ensures Outside(Run(FRESH, done))
  {
    if done != "" {
      var before := done[..|done| - 1];
      assert done == before + ['\n'];
      TidyConcat(FRESH, before, ['\n']);
      EscapesInStrings(FRESH, before);
      RunSnoc(FRESH, before, '\n');
    }
  }

  lemma FirstVisible(s: Scan, line: string, rest: string)
    requires Outside(s) && Tidy(s, line + rest)
    ensures LeadOf(line) < |line| ==> line[LeadOf(line)] != '`'
  {
    var n := LeadOf(line);
    var lead, tail := line[..n], line[n..];
    assert forall i | 0 <= i < n :: IsSpace(lead[i]);
    InertLevel(s, lead);
    TidyConcat(s, line, rest);
    assert line == lead + tail;
    TidyConcat(s, lead, tail);
  }

  /** Where the scan is after an object that did or did not lose its final brace. */
  lemma ShownScan(s: Scan, o: Layout)
    requires Outside(s) && o.v.Object? && Valid(o.v)
    ensures Outside(Run(s, o.Shown())) && StaysAbove(s, o.Shown(), s.depth) && Tidy(s, o.Shown())
  {
    ValueLevel(s, o.v);
    if o.cut {
      PrintParts(o.v);
      TidyConcat(s, Body(o.v), "}");
      StaysAboveParts(s, Body(o.v), "}", s.depth);
      RunSnoc(s, Body(o.v), '}');
      EscapesInStrings(s, Body(o.v));
    }
  }

  lemma {:induction false} StaysAboveParts(s: Scan, a: string, b: string, d: int)
    requires StaysAbove(s, a + b, d)
    ensures StaysAbove(s, a, d)
    decreases |a|
  {
    if a != "" {
      assert (a + b)[0] == a[0] && (a + b)[1..] == a[1..] + b;
      StaysAboveParts(Step(s, a[0]), a[1..], b, d);
    }
  }

  /** The text of an object's lines keeps the depth and leaves every string. */
  lemma TextScan(s: Scan, o: Layout)
    requires NeatLayout(o) && Outside(s)
    ensures Outside(Run(s, o.Text() + "\n")) && StaysAbove(s, o.Text() + "\n", s.depth)
    ensures Tidy(s, o.Text() + "\n")
  {
    var end := o.tail + "\n";
    assert o.Text() + "\n" == o.lead + (o.Shown() + end);
    WsInert(o.lead);
    WsInert(end);
    InertLevel(s, o.lead);
    ShownScan(s, o);
    var inside := Run(s, o.Shown());
    StaysAbovePrefix(s, o.Shown(), s.depth, |o.Shown()|);
    assert o.Shown()[..|o.Shown()|] == o.Shown();
    InertLevel(inside, end);
    LowerBound(inside, end, inside.depth, s.depth);
    RunConcat(s, o.Shown(), end);
    TidyConcat(s, o.Shown(), end);
    StaysAboveConcat(s, o.Shown(), end, s.depth);
    RunConcat(s, o.lead, o.Shown() + end);
    TidyConcat(s, o.lead, o.Shown() + end);
    StaysAboveConcat(s, o.lead, o.Shown() + end, s.depth);
  }

  lemma {:induction false} LowerBound(s: Scan, t: string, d: int, e: int)
    requires StaysAbove(s, t, d) && e <= d
    ensures StaysAbove(s, t, e)
    decreases t
  {
    if t != "" {
      LowerBound(Step(s, t[0]), t[1..], d, e);
    }
  }

  lemma JoinFirst(lines: seq<string>)
    requires lines != []
    ensures JoinLines(lines) == lines[0] + ("\n" + JoinLines(lines[1..]))
  {}

  lemma LineIsTidy(o: Layout, done: string, lines: seq<string>)
    requires Remaining(o, done, lines)
    ensures Outside(Run(FRESH, done)) && Tidy(Run(FRESH, done), JoinLines(lines))
  {
    TextScan(FRESH, o);
    TidyConcat(FRESH, done, JoinLines(lines));
    LinesStartOutside(done);
  }

  lemma NoMarker(line: string)
    requires LeadOf(line) < |line| ==> line[LeadOf(line)] != '`'
    ensures !ClosesFence(line)
  {
    assert Trim(line) != "" ==> Trim(line)[0] == line[LeadOf(line)];
  }

  /** No line of an object is the closing marker. */
  lemma NoLineCloses(o: Layout, done: string, lines: seq<string>)
    requires Remaining(o, done, lines) && lines != []
    ensures !ClosesFence(lines[0])
  {
    LineIsTidy(o, done, lines);
    JoinFirst(lines);
    FirstVisible(Run(FRESH, done), lines[0], "\n" + JoinLines(lines[1..]));
    NoMarker(lines[0]);
  }

  // ---- one line -----------------------------------------------------------

  /** A line that continues the open patch, or opens one, is fed as it is. */
  lemma LineFed<S, P>(core: Core<S, P>, st: State<S>, done: string, line: string)
    requires st.inFence && st.held == Held(done, Run(FRESH, done)) && !ClosesFence(line)
    requires if done == "" then StartsOpen(line)
             else StartsOpen(done) && !IsComplete(Run(FRESH, done)) && !Announces(line)
    ensures var text := done + (line + "\n");
            ProcessLine(core, st, line, true) == Absorb(core, st.(held := Held(text, Run(FRESH, text))))
  {
    RunConcat(FRESH, done, line + "\n");
    assert Fed(st.held, line + "\n") == Held(done + (line + "\n"), Run(FRESH, done + (line + "\n")));
    if done == "" {
      NothingIsEmpty();
    }
  }

  /** A line of an object is fed as it is, unless it announces a patch while the object is open. */
  lemma ObjectLineFed<S, P>(core: Core<S, P>, st: State<S>, o: Layout, done: string, lines: seq<string>)
    requires st.inFence && st.held == Held(done, Run(FRESH, done))
    requires Remaining(o, done, lines) && lines != [] && (done != "" ==> !Announces(lines[0]))
    ensures var text := done + (lines[0] + "\n");
            ProcessLine(core, st, lines[0], true) == Absorb(core, st.(held := Held(text, Run(FRESH, text))))
  {
    NoLineCloses(o, done, lines);
    if done == "" {
      FirstLineOpens(o, lines);
    } else {
      MoreToCome(o, done, lines);
    }
    LineFed(core, st, done, lines[0]);
  }

  /** An object's next line either leaves it open or, being the last, applies it. */
  lemma LineRead<S, P>(core: Core<S, P>, st: State<S>, o: Layout, done: string, lines: seq<string>)
    requires WellFormed(st) && st.inFence && st.held == Held(done, Run(FRESH, done))
    requires Remaining(o, done, lines) && lines != [] && (done != "" ==> !Announces(lines[0]))
    ensures var text := done + (lines[0] + "\n");
            ProcessLine(core, st, lines[0], true)
            == if |lines| == 1 && !o.cut then ApplyRaw(core, st.(held := NOTHING), Print(o.v))
               else st.(held := Held(text, Run(FRESH, text)))
  {
    ObjectLineFed(core, st, o, done, lines);
    Advance(o, done, lines);
    var text := done + (lines[0] + "\n");
    if |lines| == 1 {
      AllRead(o, text, lines[1..]);
      if o.cut {
        CutIsOpen(o);
      } else {
        AbsorbObject(core, st, o);
      }
    } else {
      MoreToCome(o, text, lines[1..]);
    }
  }

  lemma AllRead(o: Layout, done: string, lines: seq<string>)
    requires Remaining(o, done, lines) && lines == []
    ensures done == o.Text() + "\n"
  {
    assert done + "" == done;
  }

  /** Without its final brace the whole object is open, and its repair is the object. */
  lemma CutIsOpen(o: Layout)
    requires NeatLayout(o) && o.cut
    ensures var text := o.Text() + "\n";
            && Run(FRESH, text) == INNER && StartsOpen(text)
            && Repaired(text, INNER) == o.lead + Print(Tight(o.v)) != ""
  {
    var end := o.tail + "\n";
    CutLayoutText(o.lead, Body(o.v), o.tail);
    WsInert(end);
    WsInert(o.lead);
    RepairRestoresObject(o.lead, o.v, end);
    BraceOpens(o.lead, Body(o.v) + end);
  }

  lemma CutLayoutText(lead: string, body: string, tail: string)
    ensures lead + (body + tail) + "\n" == lead + body + (tail + "\n") == lead + (body + (tail + "\n"))
  {}

  lemma AbsorbObject<S, P>(core: Core<S, P>, st: State<S>, o: Layout)
    requires NeatLayout(o) && !o.cut
    ensures var text := o.Text() + "\n";
            Absorb(core, st.(held := Held(text, Run(FRESH, text)))) == ApplyRaw(core, st.(held := NOTHING), Print(o.v))
  {
    ObjectComplete(o);
  }

  lemma BeforeNewline(line: string, more: string, lead: string, rest: string)
    requires line + "\n" + more == lead + rest && NoNewline(lead) && rest != "" && rest[0] == '{'
    ensures |lead| < |line| && line == lead + line[|lead|..] && line[|lead|] == '{'
  {
    var all := line + "\n" + more;
    assert all[|line|] == '\n' && all[|lead|] == rest[0];
    assert forall i | 0 <= i < |lead| :: all[i] == lead[i];
    assert all[..|lead|] == lead;
    assert |lead| < |line| ==> line[..|lead|] == all[..|lead|];
  }

  /** The first line carries the opening brace, since no newline comes before it. */
  lemma FirstLineOpens(o: Layout, lines: seq<string>)
    requires Remaining(o, "", lines) && lines != []
    ensures StartsOpen(lines[0])
  {
    ShownParts(o);
    var rest := o.Shown() + o.tail + "\n";
    assert "" + JoinLines(lines) == JoinLines(lines);
    assert o.Text() + "\n" == o.lead + rest;
    BeforeNewline(lines[0], JoinLines(lines[1..]), o.lead, rest);
    WsInert(o.lead);
    BraceOpens(o.lead, lines[0][|o.lead|..]);
  }

  lemma ObjectComplete(o: Layout)
    requires NeatLayout(o) && !o.cut
    ensures var text := o.Text() + "\n"; IsComplete(Run(FRESH, text)) && Trim(text) == Print(o.v)
  {
    PrintParts(o.v);
    var end := o.tail + "\n";
    assert o.Text() + "\n" == o.lead + Print(o.v) + end;
    CompleteAfter(o.lead, o.v, end);
    WsInert(o.lead);
    WsInert(end);
    TrimTight(o.lead, Print(o.v), end);
  }

  // ---- all lines ----------------------------------------------------------

  /** Whether a line that continues the object announces a new patch. */
  ghost predicate Interrupted(done: string, lines: seq<string>) {
    exists i | (if done == "" then 1 else 0) <= i < |lines| :: Announces(lines[i])
  }

  lemma InterruptedThen(done: string, lines: seq<string>)
    requires lines != [] && (done != "" ==> !Announces(lines[0])) && Interrupted(done, lines)
    ensures Interrupted(done + (lines[0] + "\n"), lines[1..])
  {
    var i :| (if done == "" then 1 else 0) <= i < |lines| && Announces(lines[i]);
    assert lines[1..][i - 1] == lines[i];
  }

  lemma InterruptedBefore(done: string, lines: seq<string>)
    requires lines != [] && Interrupted(done + (lines[0] + "\n"), lines[1..])
    ensures Interrupted(done, lines)
  {
    var i :| 0 <= i < |lines[1..]| && Announces(lines[1..][i]);
    assert lines[i + 1] == lines[1..][i];
  }

  lemma InterruptedLater(done: string, lines: seq<string>)
    requires lines != [] && (done != "" ==> !Announces(lines[0]))
    ensures Interrupted(done, lines) <==> Interrupted(done + (lines[0] + "\n"), lines[1..])
  {
    if Interrupted(done, lines) {
      InterruptedThen(done, lines);
    }
    if Interrupted(done + (lines[0] + "\n"), lines[1..]) {
      InterruptedBefore(done, lines);
    }
  }

  lemma {:induction false} ReadWhole<S, P>(core: Core<S, P>, st: State<S>, o: Layout, done: string, lines: seq<string>)
    requires WellFormed(st) && st.inFence && st.held == Held(done, Run(FRESH, done))
    requires Remaining(o, done, lines) && lines != [] && !Interrupted(done, lines)
    ensures var text := o.Text() + "\n";
            ProcessLines(core, st, lines)
            == if o.cut then st.(held := Held(text, Run(FRESH, text)))
               else ApplyRaw(core, st.(held := NOTHING), Print(o.v))
    decreases |lines|
  {
    assert done != "" ==> !Announces(lines[0]);
    LineRead(core, st, o, done, lines);
    if |lines| == 1 {
      Advance(o, done, lines);
      AllRead(o, done + (lines[0] + "\n"), lines[1..]);
    } else {
      var text := done + (lines[0] + "\n");
      InterruptedLater(done, lines);
      LineKeeps(core, st, lines[0], true);
      Advance(o, done, lines);
      ReadWhole(core, st.(held := Held(text, Run(FRESH, text))), o, text, lines[1..]);
    }
  }

  lemma RepairIsVisible(h: Held)
    requires h.scan == Run(FRESH, h.text) && h.scan.depth == 1
    ensures Repaired(h.text, h.scan) != ""
  {
    ClosersTrackDepth(h.text);
    assert h.scan.closers != "";
  }

  lemma ApplyIsHeard<S, P>(core: Core<S, P>, st: State<S>, raw: string)
    ensures |ApplyRaw(core, st, raw).events| == |st.events| + if raw != "" && OnSpec(st) then 1 else 0
  {}

  /** Giving up an open patch is always heard: it is applied or reported. */
  lemma GiveUpIsHeard<S, P>(core: Core<S, P>, st: State<S>)
    requires WellFormed(st) && st.inFence && st.held != NOTHING
    ensures |GiveUp(core, st, Truncated).events| == |st.events| + 1
  {
    if Salvageable(core, st) {
      RepairIsVisible(st.held);
      ApplyIsHeard(core, st.(held := NOTHING), Repaired(st.held.text, st.held.scan));
    }
  }

  /** Absorbing a text ends in holding it or in one event. */
  lemma AbsorbIsHeard<S, P>(core: Core<S, P>, fed: State<S>)
    requires OnSpec(fed) && StartsOpen(fed.held.text)
    ensures || Absorb(core, fed) == fed
            || (Absorb(core, fed).held == NOTHING && |Absorb(core, fed).events| == |fed.events| + 1)
  {
    ApplyIsHeard(core, fed.(held := NOTHING), Trim(fed.held.text));
  }

  /** In a block, a line never takes an event back, and text being held does not vanish silently. */
  ghost predicate Heard<S>(st: State<S>, next: State<S>) {
    && WellFormed(next) && next.inFence && |next.events| >= |st.events|
    && (st.held != NOTHING && next.held == NOTHING ==> |next.events| > |st.events|)
  }

  lemma LineIsHeard<S, P>(core: Core<S, P>, st: State<S>, line: string)
    requires WellFormed(st) && st.inFence && !ClosesFence(line)
    ensures Heard(st, ProcessLine(core, st, line, true))
  {
    LineKeeps(core, st, line, true);
    PatchLineStays(core, st, line, true);
    PatchLineIsHeard(core, st, line);
  }

  lemma PatchLineIsHeard<S, P>(core: Core<S, P>, st: State<S>, line: string)
    requires WellFormed(st) && st.inFence
    ensures var next := ApplyPatchLine(core, st, line, true);
            && |next.events| >= |st.events|
            && (st.held != NOTHING && next.held == NOTHING ==> |next.events| > |st.events|)
  {
    NothingIsEmpty();
    if MidPatch(st) && Announces(line) {
      OpLineIsNoMarker(line);
      AnnouncedPatchIsHeard(core, st, line);
    } else if !IsEmpty(st.held) || "{" <= Trim(line) {
      HeldAfterFeeding(st.held, line, true);
      AbsorbIsHeard(core, st.(held := Fed(st.held, Physical(line, true))));
    }
  }

  /** A line that announces a patch while another is open adds an event for the open one. */
  lemma AnnouncedPatchIsHeard<S, P>(core: Core<S, P>, st: State<S>, line: string)
    requires WellFormed(st) && st.inFence && MidPatch(st) && Announces(line)
    ensures var next := ApplyPatchLine(core, st, line, true);
            |next.events| >= |st.events| + 2 || (next.held != NOTHING && |next.events| == |st.events| + 1)
  {
    NothingIsEmpty();
    OpLineIsNoMarker(line);
    GiveUpStays(core, st, Truncated);
    GiveUpIsHeard(core, st);
    var ready := GiveUp(core, st, Truncated);
    HeldAfterFeeding(NOTHING, line, true);
    AbsorbIsHeard(core, ready.(held := Fed(NOTHING, Physical(line, true))));
  }

  lemma {:induction false} LinesAreHeard<S, P>(core: Core<S, P>, st: State<S>, lines: seq<string>)
    requires WellFormed(st) && st.inFence && forall i | 0 <= i < |lines| :: !ClosesFence(lines[i])
    ensures Heard(st, ProcessLines(core, st, lines))
    decreases |lines|
  {
    if lines != [] {
      LineIsHeard(core, st, lines[0]);
      LinesAreHeard(core, ProcessLine(core, st, lines[0], true), lines[1..]);
    }
  }

  lemma {:induction false} NoneCloses(o: Layout, done: string, lines: seq<string>)
    requires Remaining(o, done, lines)
    ensures forall i | 0 <= i < |lines| :: !ClosesFence(lines[i])
    decreases |lines|
  {
    if lines != [] {
      NoLineCloses(o, done, lines);
      Advance(o, done, lines);
      NoneCloses(o, done + (lines[0] + "\n"), lines[1..]);
      assert forall i | 1 <= i < |lines| :: lines[i] == lines[1..][i - 1];
    }
  }

  lemma InterruptionIsHeard<S, P>(core: Core<S, P>, st: State<S>, o: Layout, done: string, lines: seq<string>)
    requires WellFormed(st) && st.inFence && st.held == Held(done, Run(FRESH, done))
    requires Remaining(o, done, lines) && done != "" && lines != [] && Announces(lines[0])
    ensures var later := ProcessLines(core, st, lines);
            later.held != NOTHING || |later.events| >= |st.events| + 2
  {
    MoreToCome(o, done, lines);
    NoneCloses(o, done, lines);
    AnnouncedPatchIsHeard(core, st, lines[0]);
    LineIsHeard(core, st, lines[0]);
    LinesAreHeard(core, ProcessLine(core, st, lines[0], true), lines[1..]);
  }

  /** An interrupted object leaves more behind than one event. */
  lemma {:induction false} ReadInPieces<S, P>(core: Core<S, P>, st: State<S>, o: Layout, done: string,
                                              lines: seq<string>)
    requires WellFormed(st) && st.inFence && st.held == Held(done, Run(FRESH, done))
    requires Remaining(o, done, lines) && Interrupted(done, lines)
    ensures var later := ProcessLines(core, st, lines);
            later.held != NOTHING || |later.events| >= |st.events| + 2
    decreases |lines|
  {
    if done != "" && Announces(lines[0]) {
      InterruptionIsHeard(core, st, o, done, lines);
    } else {
      var text := done + (lines[0] + "\n");
      InterruptedLater(done, lines);
      LineRead(core, st, o, done, lines);
      LineKeeps(core, st, lines[0], true);
      Advance(o, done, lines);
      ReadInPieces(core, st.(held := Held(text, Run(FRESH, text))), o, text, lines[1..]);
    }
  }

  /** A pretty-printed patch object is applied once, as a whole, exactly when none of its lines after
      the first looks like the start of a patch. */
  lemma AppliedOnceExactlyWithoutInnerPatchLine<S, P>(core: Core<S, P>, st: State<S>, o: Layout, lines: seq<string>)
    requires WellFormed(st) && st.inFence && st.held == NOTHING && LinesOf(o, lines) && !o.cut
    ensures ProcessLines(core, st, lines) == ApplyRaw(core, st, Print(o.v))
       <==> forall i | 1 <= i < |lines| :: !Announces(lines[i])
  {
    assert "" + JoinLines(lines) == JoinLines(lines);
    assert lines != [];
    if Interrupted("", lines) {
      ReadInPieces(core, st, o, "", lines);
      ApplyIsHeard(core, st, Print(o.v));
    } else {
      ReadWhole(core, st, o, "", lines);
    }
  }

  // ---- a patch that is taken for two --------------------------------------

  /** Members, of any number and form, followed by one that has its value on a line of its own. */
  function WithLast(front: Members, key: seq<StringItem>, inner: Json): (all: Members)
    ensures all.Member?
  {
    match front
    case NoMembers => Member(key, "", "\n", inner, "", "", NoMembers)
    case Member(k, afterKey, beforeValue, value, after, before, rest) =>
      Member(k, afterKey, beforeValue, value, after, before, WithLast(rest, key, inner))
  }

  /** What is printed of them before that line. */
  function UpToLast(front: Members, key: seq<StringItem>): string {
    match front
    case NoMembers => Quoted(key) + ":"
    case Member(k, afterKey, beforeValue, value, after, before, rest) =>
      Quoted(k) + (afterKey + ":" + beforeValue) + Print(value) + after + (("," + before) + UpToLast(rest, key))
  }

  lemma {:induction false} WithLastPrints(front: Members, key: seq<StringItem>, inner: Json)
    ensures PrintMembers(WithLast(front, key, inner)) == UpToLast(front, key) + ("\n" + Print(inner))
  {
    match front
    case NoMembers => LastMember(Quoted(key), Print(inner));
    case Member(k, afterKey, beforeValue, value, after, before, rest) =>
      WithLastPrints(rest, key, inner);
      var head := Quoted(k) + (afterKey + ":" + beforeValue) + Print(value) + after;
      Reassociate(head, "," + before, UpToLast(rest, key), "\n" + Print(inner));
  }

  lemma LastMember(c: string, d: string)
    ensures c + ("" + ":" + "\n") + d + "" + "" == (c + ":") + ("\n" + d)
  {}

  lemma Reassociate(a: string, b: string, c: string, d: string)
    ensures a + (b + (c + d)) == (a + (b + c)) + d
  {}

  /** An object whose last value is on a second line. */
  function TwoLines(open: string, front: Members, key: seq<StringItem>, inner: Json): Json {
    Object(open, WithLast(front, key, inner))
  }

  function FirstOfTwo(open: string, front: Members, key: seq<StringItem>): string {
    "{" + (open + UpToLast(front, key))
  }

  lemma TwoLinesPrint(open: string, front: Members, key: seq<StringItem>, inner: Json)
    ensures Print(TwoLines(open, front, key, inner)) == FirstOfTwo(open, front, key) + "\n" + (Print(inner) + "}")
  {
    WithLastPrints(front, key, inner);
    Bracketed(open, UpToLast(front, key), Print(inner));
  }

  lemma Bracketed(open: string, a: string, b: string)
    ensures "{" + (open + (a + ("\n" + b))) + "}" == ("{" + (open + a)) + "\n" + (b + "}")
  {}

  lemma MarkerExtends(t: string, y: string)
    requires OpPatchLine(t)
    ensures OpPatchLine(t + y)
  {
    var key, colon := OpMarkerFound(t);
    MarkerShared(t, t + y, key, colon);
    OpMarkerAt(t + y, key, colon);
  }

  lemma StillAnnounces(t: string)
    requires OpPatchLine(t)
    ensures Announces(t + "}")
  {
    MarkerExtends(t, "}");
    var u := t + "}";
    assert "" + u + "" == u;
    TrimTight("", u, "");
  }

  lemma TwoLinesAreLines(open: string, front: Members, key: seq<StringItem>, inner: Json)
    requires Valid(TwoLines(open, front, key, inner)) && SingleLinePatch(inner)
    requires NoNewline(FirstOfTwo(open, front, key))
    ensures LinesOf(Layout("", TwoLines(open, front, key, inner), "", false),
                    [FirstOfTwo(open, front, key), Print(inner) + "}"])
  {
    TwoLinesPrint(open, front, key, inner);
    AreLines(TwoLines(open, front, key, inner), FirstOfTwo(open, front, key), Print(inner) + "}");
  }

  lemma AreLines(v: Json, first: string, second: string)
    requires v.Object? && Valid(v) && Print(v) == first + "\n" + second && NoNewline(first) && NoNewline(second)
    ensures LinesOf(Layout("", v, "", false), [first, second])
  {
    JoinTwo(first, second);
  }

  /** So the boundary rule does misfire on legitimate JSON: an object with any members of which the last
      has, on a line of its own, a value that starts with the key "op" is never applied whole. */
  lemma NestedPatchIsNotAppliedWhole<S, P>(core: Core<S, P>, st: State<S>, open: string, front: Members,
                                           key: seq<StringItem>, inner: Json)
    requires WellFormed(st) && st.inFence && st.held == NOTHING
    requires Valid(TwoLines(open, front, key, inner)) && SingleLinePatch(inner)
    requires NoNewline(FirstOfTwo(open, front, key))
    ensures var lines := [FirstOfTwo(open, front, key), Print(inner) + "}"];
            && LinesOf(Layout("", TwoLines(open, front, key, inner), "", false), lines)
            && ProcessLines(core, st, lines) != ApplyRaw(core, st, Print(TwoLines(open, front, key, inner)))
  {
    TwoLinesAreLines(open, front, key, inner);
    StillAnnounces(Print(inner));
    SecondInterrupts(core, st, TwoLines(open, front, key, inner), FirstOfTwo(open, front, key), Print(inner) + "}");
  }

  lemma SecondInterrupts<S, P>(core: Core<S, P>, st: State<S>, v: Json, first: string, second: string)
    requires WellFormed(st) && st.inFence && st.held == NOTHING
    requires LinesOf(Layout("", v, "", false), [first, second]) && Announces(second)
    ensures ProcessLines(core, st, [first, second]) != ApplyRaw(core, st, Print(v))
  {
    assert Announces([first, second][1]);
    AppliedOnceExactlyWithoutInnerPatchLine(core, st, Layout("", v, "", false), [first, second]);
  }

  lemma JoinTwo(first: string, second: string)
    ensures "" + JoinLines([first, second]) == first + "\n" + second + "\n"
  {
    assert [first, second][1..] == [second] && [second][1..] == [];
    assert JoinLines([second]) == second + "\n" + "";
  }
}
