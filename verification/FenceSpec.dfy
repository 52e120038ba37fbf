/** What one line, one chunk and the end of a message do to the segments of a streamed message. */
module FenceSpec {
  import opened Wrappers
  import opened Text
  import opened PatchAccumulators

  const SPEC_FENCE_OPEN := "```spec"
  const SPEC_FENCE_CLOSE := "```"

  /** The two primitives of the rendering library, unknown here: what a text says as a patch
      (if anything) and what a patch does to a spec. */
  datatype Core<!S, !P> = Core(empty: S, parse: string -> Option<P>, apply: (S, P) -> S)

  datatype Segment<+S> =
    | TextSegment(text: string)
    | SpecSegment(spec: S, patchCount: nat, closed: bool)

  datatype Complaint = Unterminated | ClosedMidPatch | Truncated | Unparseable

  datatype Event =
    | SpecOpened
    | PatchApplied(segment: int, count: nat)
    | SpecError(complaint: Complaint, text: string)

  datatype State<+S> = State(
    segments: seq<Segment<S>>,
    inFence: bool,
    active: int,
    held: Held,
    events: seq<Event>)

  /** A parser is its state and the partial line it still waits to complete. */
  datatype Parser<+S> = Parser(state: State<S>, buffer: string)

  function Initial<S>(): Parser<S> {
    Parser(State([], false, -1, NOTHING, []), "")
  }

  function Complain<S>(st: State<S>, complaint: Complaint, text: string): State<S> {
    st.(events := st.events + [SpecError(complaint, text)])
  }

  /** The start of a new patch object: `{`, the key "op", a colon, with any space between. */
  predicate OpPatchLine(t: string) {
    && t != "" && t[0] == '{'
    && var key := 1 + LeadOf(t[1..]);
       && key + 4 < |t| && t[key..key + 4] == "\"op\""
       && var colon := key + 4 + LeadOf(t[key + 4..]);
          colon < |t| && t[colon] == ':'
  }

  function Physical(line: string, hadNewline: bool): string {
    if hadNewline then line + "\n" else line
  }

  predicate OnSpec<S>(st: State<S>) {
    0 <= st.active < |st.segments| && st.segments[st.active].SpecSegment?
  }

  function ApplyRaw<S, P>(core: Core<S, P>, st: State<S>, raw: string): State<S> {
    if raw == "" || !OnSpec(st) then st
    else
      var segment := st.segments[st.active];
      match core.parse(raw)
      case None => Complain(st, Unparseable, raw)
      case Some(patch) =>
        var next := segment.(spec := core.apply(segment.spec, patch), patchCount := segment.patchCount + 1);
        st.(segments := st.segments[st.active := next],
            events := st.events + [PatchApplied(st.active, next.patchCount)])
  }

  predicate Salvageable<S, P>(core: Core<S, P>, st: State<S>) {
    CanRepair(st.held.scan) && core.parse(Repaired(st.held.text, st.held.scan)).Some?
  }

  function Salvage<S, P>(core: Core<S, P>, st: State<S>): State<S> {
    if Salvageable(core, st)
    then ApplyRaw(core, st.(held := NOTHING), Repaired(st.held.text, st.held.scan))
    else st
  }

  /** Gives up a patch that is still open: rescued when it can be, reported otherwise. */
  function GiveUp<S, P>(core: Core<S, P>, st: State<S>, complaint: Complaint): State<S> {
    if Salvageable(core, st) then Salvage(core, st)
    else Complain(st, complaint, Trim(st.held.text)).(held := NOTHING)
  }

  predicate MidPatch<S>(st: State<S>) {
    !IsEmpty(st.held) && !IsComplete(st.held.scan)
  }

  /** A new patch starting while another is open means the open one was truncated. */
  function Ready<S, P>(core: Core<S, P>, st: State<S>, trimmed: string): State<S> {
    if MidPatch(st) && OpPatchLine(trimmed) then GiveUp(core, st, Truncated) else st
  }

  function ApplyPatchLine<S, P>(core: Core<S, P>, st: State<S>, line: string, hadNewline: bool): State<S> {
    var trimmed := Trim(line);
    if IsEmpty(st.held) && trimmed == "" then st
    else
      var ready := Ready(core, st, trimmed);
      if IsEmpty(ready.held) && !("{" <= trimmed) then Complain(ready, Unparseable, trimmed)
      else Absorb(core, ready.(held := Fed(ready.held, Physical(line, hadNewline))))
  }

  /** What becomes of the held text right after a line was fed. */
  function Absorb<S, P>(core: Core<S, P>, fed: State<S>): State<S> {
    var text := Trim(fed.held.text);
    if IsUnrecoverable(fed.held.scan) then Complain(fed, Unparseable, text).(held := NOTHING)
    else if !IsComplete(fed.held.scan) then fed
    else ApplyRaw(core, fed.(held := NOTHING), text)
  }

  function OpenSpec<S, P>(core: Core<S, P>, st: State<S>): State<S> {
    State(st.segments + [SpecSegment(core.empty, 0, false)], true, |st.segments|, NOTHING,
          st.events + [SpecOpened])
  }

  function CloseSpec<S, P>(core: Core<S, P>, st: State<S>): State<S> {
    var done := (if MidPatch(st) then GiveUp(core, st, ClosedMidPatch) else st).(held := NOTHING);
    done.(inFence := false, active := -1,
          segments := if OnSpec(done)
                      then done.segments[done.active := done.segments[done.active].(closed := true)]
                      else done.segments)
  }

  function AppendText<S>(st: State<S>, text: string): State<S> {
    var n := |st.segments|;
    if text == "" then st
    else if n > 0 && st.segments[n - 1].TextSegment?
    then st.(segments := st.segments[n - 1 := TextSegment(st.segments[n - 1].text + text)])
    else st.(segments := st.segments + [TextSegment(text)])
  }

  predicate OpensFence(line: string) { SPEC_FENCE_OPEN <= Trim(line) }

  predicate ClosesFence(line: string) { Trim(line) == SPEC_FENCE_CLOSE }

  function ProcessLine<S, P>(core: Core<S, P>, st: State<S>, line: string, hadNewline: bool): State<S> {
    if !st.inFence && OpensFence(line) then OpenSpec(core, st)
    else if st.inFence && ClosesFence(line) then CloseSpec(core, st)
    else if st.inFence then ApplyPatchLine(core, st, line, hadNewline)
    else AppendText(st, Physical(line, hadNewline))
  }

  function ProcessLines<S, P>(core: Core<S, P>, st: State<S>, lines: seq<string>): State<S>
    decreases lines
  {
    if lines == [] then st else ProcessLines(core, ProcessLine(core, st, lines[0], true), lines[1..])
  }

  function Push<S, P>(core: Core<S, P>, p: Parser<S>, chunk: string): Parser<S> {
    var split := SplitLines(p.buffer + chunk);
    Parser(ProcessLines(core, p.state, split.lines), split.rest)
  }

  function Flush<S, P>(core: Core<S, P>, p: Parser<S>, final: bool): Parser<S> {
    var st := if p.buffer == "" then p.state else ProcessLine(core, p.state, p.buffer, false);
    var settled := if final && !IsEmpty(st.held) then GiveUp(core, st, Unterminated) else st;
    Parser(settled.(held := NOTHING, inFence := false), "")
  }

  function ParseMessage<S, P>(core: Core<S, P>, message: string, final: bool): State<S> {
    Flush(core, Push(core, Initial(), message), final).state
  }
}
