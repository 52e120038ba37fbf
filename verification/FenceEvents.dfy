/** The callbacks of the fence parser tell exactly what became of every block. */
module FenceEvents {
  import opened Text
  import opened PatchAccumulators
  import opened FenceSpec

  /** The counts reported for patches applied to segment `i`, in order. */
  function Applications(events: seq<Event>, i: int): seq<nat> {
    if events == [] then []
    else
      var last := events[|events| - 1];
      Applications(events[..|events| - 1], i) + if last.PatchApplied? && last.segment == i then [last.count] else []
  }

  function Openings(events: seq<Event>): nat {
    if events == [] then 0
    else Openings(events[..|events| - 1]) + if events[|events| - 1].SpecOpened? then 1 else 0
  }

  function Blocks<S>(segments: seq<Segment<S>>): nat {
    if segments == [] then 0
    else Blocks(segments[..|segments| - 1]) + if segments[|segments| - 1].SpecSegment? then 1 else 0
  }

  /** One, two, and so on. */
  function OneTo(n: nat): seq<nat> {
    if n == 0 then [] else OneTo(n - 1) + [n]
  }

  function PatchesOf<S>(segments: seq<Segment<S>>, i: int): nat {
    if 0 <= i < |segments| && segments[i].SpecSegment? then segments[i].patchCount else 0
  }

  /** Every block was announced once, and each of its patches with its number, in order. */
  ghost predicate Told<S>(st: State<S>) {
    && Openings(st.events) == Blocks(st.segments)
    && forall i :: Applications(st.events, i) == OneTo(PatchesOf(st.segments, i))
  }

  lemma EventSnoc(events: seq<Event>, e: Event, i: int)
    ensures Openings(events + [e]) == Openings(events) + if e.SpecOpened? then 1 else 0
    ensures Applications(events + [e], i)
         == Applications(events, i) + if e.PatchApplied? && e.segment == i then [e.count] else []
  {
    assert (events + [e])[..|events|] == events;
  }

  lemma SegmentSnoc<S>(segments: seq<Segment<S>>, segment: Segment<S>)
    ensures Blocks(segments + [segment]) == Blocks(segments) + if segment.SpecSegment? then 1 else 0
  {
    assert (segments + [segment])[..|segments|] == segments;
  }

  lemma {:induction false} SegmentReplaced<S>(segments: seq<Segment<S>>, i: nat, segment: Segment<S>)
    requires i < |segments| && segments[i].SpecSegment? == segment.SpecSegment?
    ensures Blocks(segments[i := segment]) == Blocks(segments)
    decreases |segments|
  {
    var n := |segments| - 1;
    if i == n {
      assert segments[i := segment][..n] == segments[..n];
    } else {
      assert segments[i := segment][..n] == segments[..n][i := segment];
      SegmentReplaced(segments[..n], i, segment);
    }
  }

  lemma ReplacedTells<S>(st: State<S>, i: nat, segment: Segment<S>)
    requires Told(st) && i < |st.segments| && st.segments[i].SpecSegment? == segment.SpecSegment?
    requires segment.SpecSegment? ==> segment.patchCount == st.segments[i].patchCount
    ensures Told(st.(segments := st.segments[i := segment]))
  {
    SegmentReplaced(st.segments, i, segment);
    var next := st.segments[i := segment];
    forall j: int
      ensures PatchesOf(next, j) == PatchesOf(st.segments, j)
    {}
  }

  lemma ComplaintTells<S>(st: State<S>, complaint: Complaint, text: string)
    requires Told(st)
    ensures Told(Complain(st, complaint, text))
  {
    forall i: int
      ensures Applications(Complain(st, complaint, text).events, i) == OneTo(PatchesOf(st.segments, i))
    {
      EventSnoc(st.events, SpecError(complaint, text), i);
    }
    EventSnoc(st.events, SpecError(complaint, text), 0);
  }

  lemma ApplyTells<S, P>(core: Core<S, P>, st: State<S>, raw: string)
    requires Told(st)
    ensures Told(ApplyRaw(core, st, raw))
  {
    if raw != "" && OnSpec(st) {
      match core.parse(raw)
      case None => ComplaintTells(st, Unparseable, raw);
      case Some(patch) =>
        var next, e := ApplyRaw(core, st, raw), PatchApplied(st.active, st.segments[st.active].patchCount + 1);
        EventSnoc(st.events, e, 0);
        SegmentReplaced(st.segments, st.active, next.segments[st.active]);
        forall i: int
          ensures Applications(next.events, i) == OneTo(PatchesOf(next.segments, i))
        {
          EventSnoc(st.events, e, i);
          assert Applications(st.events, i) == OneTo(PatchesOf(st.segments, i));
        }
    }
  }

  lemma HeldIsNotTold<S>(st: State<S>, held: Held)
    ensures Told(st.(held := held)) <==> Told(st)
  {}

  lemma GiveUpTells<S, P>(core: Core<S, P>, st: State<S>, complaint: Complaint)
    requires Told(st)
    ensures Told(GiveUp(core, st, complaint))
  {
    HeldIsNotTold(st, NOTHING);
    ApplyTells(core, st.(held := NOTHING), Repaired(st.held.text, st.held.scan));
    ComplaintTells(st, complaint, Trim(st.held.text));
  }

  lemma AbsorbTells<S, P>(core: Core<S, P>, fed: State<S>)
    requires Told(fed)
    ensures Told(Absorb(core, fed))
  {
    HeldIsNotTold(fed, NOTHING);
    ComplaintTells(fed, Unparseable, Trim(fed.held.text));
    ApplyTells(core, fed.(held := NOTHING), Trim(fed.held.text));
  }

  lemma PatchLineTells<S, P>(core: Core<S, P>, st: State<S>, line: string, hadNewline: bool)
    requires Told(st)
    ensures Told(ApplyPatchLine(core, st, line, hadNewline))
  {
    GiveUpTells(core, st, Truncated);
    var ready := Ready(core, st, Trim(line));
    ComplaintTells(ready, Unparseable, Trim(line));
    var held := Fed(ready.held, Physical(line, hadNewline));
    HeldIsNotTold(ready, held);
    AbsorbTells(core, ready.(held := held));
  }

  lemma OpenedApplications(events: seq<Event>, i: int)
    ensures Applications(events + [SpecOpened], i) == Applications(events, i)
  {
    EventSnoc(events, SpecOpened, i);
  }

  lemma NewBlockHasNone<S>(segments: seq<Segment<S>>, spec: S, i: int)
    ensures PatchesOf(segments + [SpecSegment(spec, 0, false)], i) == PatchesOf(segments, i)
  {}

  lemma OpenTells<S, P>(core: Core<S, P>, st: State<S>)
    requires Told(st)
    ensures Told(OpenSpec(core, st))
  {
    var next := OpenSpec(core, st);
    SegmentSnoc(st.segments, SpecSegment(core.empty, 0, false));
    EventSnoc(st.events, SpecOpened, 0);
    forall i: int
      ensures Applications(next.events, i) == OneTo(PatchesOf(next.segments, i))
    {
      OpenedApplications(st.events, i);
      NewBlockHasNone(st.segments, core.empty, i);
    }
  }

  lemma CloseTells<S, P>(core: Core<S, P>, st: State<S>)
    requires Told(st)
    ensures Told(CloseSpec(core, st))
  {
    GiveUpTells(core, st, ClosedMidPatch);
    var settled := if MidPatch(st) then GiveUp(core, st, ClosedMidPatch) else st;
    var done := settled.(held := NOTHING);
    HeldIsNotTold(settled, NOTHING);
    if OnSpec(done) {
      ReplacedTells(done, done.active, done.segments[done.active].(closed := true));
    }
  }

  lemma AppendTells<S>(st: State<S>, text: string)
    requires Told(st)
    ensures Told(AppendText(st, text))
  {
    var n := |st.segments|;
    if text != "" {
      if n > 0 && st.segments[n - 1].TextSegment? {
        ReplacedTells(st, n - 1, TextSegment(st.segments[n - 1].text + text));
      } else {
        SegmentSnoc(st.segments, TextSegment(text));
        forall i: int
          ensures PatchesOf(st.segments + [TextSegment(text)], i) == PatchesOf(st.segments, i)
        {}
      }
    }
  }

  lemma LineTells<S, P>(core: Core<S, P>, st: State<S>, line: string, hadNewline: bool)
    requires Told(st)
    ensures Told(ProcessLine(core, st, line, hadNewline))
  {
    if !st.inFence && OpensFence(line) {
      OpenTells(core, st);
    } else if st.inFence && ClosesFence(line) {
      CloseTells(core, st);
    } else if st.inFence {
      PatchLineTells(core, st, line, hadNewline);
    } else {
      AppendTells(st, Physical(line, hadNewline));
    }
  }

  lemma {:induction false} LinesTell<S, P>(core: Core<S, P>, st: State<S>, lines: seq<string>)
    requires Told(st)
    ensures Told(ProcessLines(core, st, lines))
    decreases |lines|
  {
    if lines != [] {
      LineTells(core, st, lines[0], true);
      LinesTell(core, ProcessLine(core, st, lines[0], true), lines[1..]);
    }
  }

  /** For every message, finished or not: the callbacks announced each block once, and each patch that a block
      counts with its number, in order. */
  lemma EventsTellEveryPatch<S, P>(core: Core<S, P>, message: string, final: bool)
    ensures Told(Push(core, Initial(), message).state)
    ensures Told(ParseMessage(core, message, final))
  {
    var start: Parser<S> := Initial();
    LinesTell(core, start.state, SplitLines(start.buffer + message).lines);
    var p := Push(core, start, message);
    LineTells(core, p.state, p.buffer, false);
    var st := if p.buffer == "" then p.state else ProcessLine(core, p.state, p.buffer, false);
    GiveUpTells(core, st, Unterminated);
    var settled := if final && !IsEmpty(st.held) then GiveUp(core, st, Unterminated) else st;
    HeldIsNotTold(settled, NOTHING);
  }
}
