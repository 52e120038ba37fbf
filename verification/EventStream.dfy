/** Server-sent event frames: decoding a byte stream that was cut anywhere (a subset of sections
    9.2.5 and 9.2.6 of the WHATWG HTML Living Standard). */
module EventStream {
  import opened Collections
  import opened Wrappers
  import opened Text

  const FRAME_SEPARATOR := "\n\n"
  const PREFIX_EVENT := "event: "
  const PREFIX_DATA := "data: "

  /** Parsing the data as JSON and narrowing it to a typed event, unknown here; `None` when either
      fails. */
  type Parse<E> = (string, string) -> Option<E>

  /** Where the first blank line starts, or -1. */
  function SeparatorIndex(s: string): (i: int)
    ensures -1 <= i <= |s| - 2 || i == -1
  {
    if |s| < 2 then -1
    else if s[0] == '\n' && s[1] == '\n' then 0
    else
      var i := SeparatorIndex(s[1..]);
      if i < 0 then -1 else i + 1
  }

  predicate SeparatorAt(s: string, i: int) {
    0 <= i < |s| - 1 && s[i] == '\n' && s[i + 1] == '\n'
  }

  lemma {:induction false} SeparatorIndexIsFirst(s: string)
    ensures var i := SeparatorIndex(s);
            && (i >= 0 ==> SeparatorAt(s, i))
            && forall j | 0 <= j && (j < i || i < 0) :: !SeparatorAt(s, j)
    decreases |s|
  {
    if |s| >= 2 && !SeparatorAt(s, 0) {
      SeparatorIndexIsFirst(s[1..]);
      forall j | 0 < j && SeparatorAt(s, j)
        ensures SeparatorAt(s[1..], j - 1)
      {}
    }
  }

  lemma SeparatorIndexUnique(s: string, i: int)
    requires SeparatorAt(s, i) && forall j | 0 <= j < i :: !SeparatorAt(s, j)
    ensures SeparatorIndex(s) == i
  {
    SeparatorIndexIsFirst(s);
  }

  // ---- frames -------------------------------------------------------------

  /** The terminated frames of a text and what follows the last terminator. */
  datatype Frames = Frames(complete: seq<string>, rest: string)

  function Drain(buffer: string): Frames
    decreases |buffer|
  {
    var i := SeparatorIndex(buffer);
    if i < 0 then Frames([], buffer)
    else
      var later := Drain(buffer[i + 2..]);
      Frames([buffer[..i]] + later.complete, later.rest)
  }

  /** The last values an `event:` and a `data:` line gave. */
  datatype Fields = Fields(eventName: string, dataRaw: string)

  function ReadLine(fields: Fields, line: string): Fields {
    if PREFIX_EVENT <= line then fields.(eventName := line[|PREFIX_EVENT|..])
    else if PREFIX_DATA <= line then fields.(dataRaw := line[|PREFIX_DATA|..])
    else fields
  }

  function ReadLines(fields: Fields, lines: seq<string>): Fields
    decreases lines
  {
    if lines == [] then fields else ReadLines(ReadLine(fields, lines[0]), lines[1..])
  }

  function LinesOf(s: string): seq<string> {
    var split := SplitLines(s);
    split.lines + [split.rest]
  }

  function EventOf<E>(parse: Parse<E>, frame: string): Option<E> {
    var fields := ReadLines(Fields("", ""), LinesOf(Trim(frame)));
    if Trim(frame) == "" || fields.eventName == "" || fields.dataRaw == "" then None
    else parse(fields.eventName, fields.dataRaw)
  }

  function Present<E>(event: Option<E>): seq<E> {
    match event
    case None => []
    case Some(e) => [e]
  }

  function EventsOfFrames<E>(parse: Parse<E>, frames: seq<string>): seq<E> {
    if frames == [] then [] else Present(EventOf(parse, frames[0])) + EventsOfFrames(parse, frames[1..])
  }

  /** What a whole text says: its terminated frames, then the unterminated one. */
  function EventsOf<E>(parse: Parse<E>, text: string): seq<E> {
    var frames := Drain(text);
    EventsOfFrames(parse, frames.complete) + Present(EventOf(parse, frames.rest))
  }

  // ---- chunks -------------------------------------------------------------

  /** Text that arrives after a drain continues from what was left over. */
  lemma {:induction false} DrainConcat(a: string, b: string)
    ensures Drain(a + b).complete == Drain(a).complete + Drain(Drain(a).rest + b).complete
    ensures Drain(a + b).rest == Drain(Drain(a).rest + b).rest
    decreases |a|
  {
    var i := SeparatorIndex(a);
    if i >= 0 {
      var later := a[i + 2..];
      DrainConcat(later, b);
      FirstFrameKept(a, b);
      ConcatAssociative([a[..i]], Drain(later).complete, Drain(Drain(later).rest + b).complete);
    } else {
      ConcatAssociative([], [], Drain(a + b).complete);
      assert [] + Drain(a + b).complete == Drain(a + b).complete;
    }
  }

  lemma FirstFrameKept(a: string, b: string)
    requires SeparatorIndex(a) >= 0
    ensures var i := SeparatorIndex(a);
            var later := Drain(a[i + 2..] + b);
            Drain(a + b) == Frames([a[..i]] + later.complete, later.rest)
  {
    var i := SeparatorIndex(a);
    SeparatorKept(a, b);
    assert (a + b)[..i] == a[..i] && (a + b)[i + 2..] == a[i + 2..] + b;
  }

  lemma SeparatorKept(a: string, b: string)
    requires SeparatorIndex(a) >= 0
    ensures SeparatorIndex(a + b) == SeparatorIndex(a)
  {
    var i := SeparatorIndex(a);
    SeparatorIndexIsFirst(a);
    assert forall j | 0 <= j < i :: SeparatorAt(a, j) <==> SeparatorAt(a + b, j);
    SeparatorIndexUnique(a + b, i);
  }

  lemma {:induction false} EventsConcat<E>(parse: Parse<E>, a: seq<string>, b: seq<string>)
    ensures EventsOfFrames(parse, a + b) == EventsOfFrames(parse, a) + EventsOfFrames(parse, b)
    decreases |a|
  {
    if a == [] {
      assert a + b == b;
    } else {
      assert (a + b)[0] == a[0] && (a + b)[1..] == a[1..] + b;
      EventsConcat(parse, a[1..], b);
    }
  }

  /** One frame, line by line: a later line of the same kind wins. */
  method DecodeFrame<E>(parse: Parse<E>, frame: string) returns (event: Option<E>)
    ensures event == EventOf(parse, frame)
  {
    var trimmed := Trim(frame);
    if trimmed == "" {
      return None;
    }
    var eventName, dataRaw := "", "";
    var lines := LinesOf(trimmed);
    for i := 0 to |lines|
      invariant ReadLines(Fields(eventName, dataRaw), lines[i..]) == ReadLines(Fields("", ""), lines)
    {
      assert lines[i..][0] == lines[i] && lines[i..][1..] == lines[i + 1..];
      if PREFIX_EVENT <= lines[i] {
        eventName := lines[i][|PREFIX_EVENT|..];
        continue;
      }
      if PREFIX_DATA <= lines[i] {
        dataRaw := lines[i][|PREFIX_DATA|..];
      }
    }
    if eventName == "" || dataRaw == "" {
      return None;
    }
    event := parse(eventName, dataRaw);
  }

  lemma EventsCons<E>(parse: Parse<E>, frame: string, frames: seq<string>)
    ensures EventsOfFrames(parse, [frame] + frames) == Present(EventOf(parse, frame)) + EventsOfFrames(parse, frames)
  {
    assert ([frame] + frames)[1..] == frames;
  }

  /** Takes every terminated frame off the buffer. */
  method DecodeBuffered<E>(parse: Parse<E>, arrived: string) returns (events: seq<E>, buffer: string)
    ensures events == EventsOfFrames(parse, Drain(arrived).complete)
    ensures buffer == Drain(arrived).rest
  {
    events, buffer := [], arrived;
    var sepIndex := SeparatorIndex(buffer);
    while sepIndex != -1
      invariant sepIndex == SeparatorIndex(buffer)
      invariant Drain(arrived).rest == Drain(buffer).rest
      invariant events + EventsOfFrames(parse, Drain(buffer).complete) == EventsOfFrames(parse, Drain(arrived).complete)
      decreases |buffer|
    {
      var frame := buffer[..sepIndex];
      buffer := buffer[sepIndex + |FRAME_SEPARATOR|..];
      ghost var later := Drain(buffer).complete;
      EventsCons(parse, frame, later);
      var event := DecodeFrame(parse, frame);
      ConcatAssociative(events, Present(event), EventsOfFrames(parse, later));
      if event.Some? {
        events := events + [event.value];
      } else {
        assert events + [] == events;
      }
      sepIndex := SeparatorIndex(buffer);
    }
    assert events + [] == events;
  }

  /** However the text is cut into chunks, even inside a blank line, the events are those of the
      whole text. */
  method DecodeFrames<E>(parse: Parse<E>, chunks: seq<string>) returns (events: seq<E>)
    ensures events == EventsOf(parse, Joined(chunks))
  {
    events := [];
    var buffer := "";
    for i := 0 to |chunks|
      invariant Drain(Joined(chunks[..i])) == Frames(Drain(Joined(chunks[..i])).complete, buffer)
      invariant events == EventsOfFrames(parse, Drain(Joined(chunks[..i])).complete)
    {
      assert chunks[..i + 1][..i] == chunks[..i];
      DrainConcat(Joined(chunks[..i]), chunks[i]);
      EventsConcat(parse, Drain(Joined(chunks[..i])).complete, Drain(buffer + chunks[i]).complete);
      var arrived;
      arrived, buffer := DecodeBuffered(parse, buffer + chunks[i]);
      events := events + arrived;
    }
    assert chunks[..|chunks|] == chunks;
    var tail := DecodeFrame(parse, buffer);
    if tail.Some? {
      events := events + [tail.value];
    }
  }

  // ---- the wire format ----------------------------------------------------

  datatype WireEvent = WireEvent(name: string, data: string)

  /** One line each, neither empty, the data ending on a visible character. */
  predicate WellFormed(e: WireEvent) {
    && NoNewline(e.name) && e.name != ""
    && NoNewline(e.data) && e.data != "" && !IsSpace(e.data[|e.data| - 1])
  }

  function WireBody(e: WireEvent): string {
    PREFIX_EVENT + e.name + "\n" + (PREFIX_DATA + e.data)
  }

  function WireText(events: seq<WireEvent>): string {
    if events == [] then "" else WireBody(events[0]) + FRAME_SEPARATOR + WireText(events[1..])
  }

  function Expected<E>(parse: Parse<E>, events: seq<WireEvent>): seq<E> {
    if events == [] then []
    else Present(parse(events[0].name, events[0].data)) + Expected(parse, events[1..])
  }

  lemma BodyFields<E>(parse: Parse<E>, e: WireEvent)
    requires WellFormed(e)
    ensures EventOf(parse, WireBody(e)) == parse(e.name, e.data)
  {
    var first, second := PREFIX_EVENT + e.name, PREFIX_DATA + e.data;
    BodyTrimmed(e);
    BodyLines(first, second);
    FieldsOfTwo(first, second);
    assert first[|PREFIX_EVENT|..] == e.name && second[|PREFIX_DATA|..] == e.data;
  }

  lemma BodyTrimmed(e: WireEvent)
    requires WellFormed(e)
    ensures Trim(WireBody(e)) == WireBody(e) != ""
  {
    var body := WireBody(e);
    assert body[0] == 'e' && body[|body| - 1] == e.data[|e.data| - 1];
    assert "" + body + "" == body;
    TrimTight("", body, "");
  }

  lemma BodyLines(first: string, second: string)
    requires NoNewline(first) && NoNewline(second)
    ensures LinesOf(first + "\n" + second) == [first] + [] + [second]
  {
    SplitAt(first, second);
    SplitNone(second);
  }

  lemma FieldsOfTwo(first: string, second: string)
    requires PREFIX_EVENT <= first && PREFIX_DATA <= second
    ensures ReadLines(Fields("", ""), [first] + [] + [second])
         == Fields(first[|PREFIX_EVENT|..], second[|PREFIX_DATA|..])
  {
    var lines := [first] + [] + [second];
    assert lines[1..] == [second] && [second][1..] == [];
    assert second[0] == 'd';
    var one := ReadLine(Fields("", ""), first);
    assert ReadLines(one, [second]) == ReadLines(ReadLine(one, second), []);
  }

  lemma BodySeparator(e: WireEvent, more: string)
    requires WellFormed(e)
    ensures SeparatorIndex(WireBody(e) + FRAME_SEPARATOR + more) == |WireBody(e)|
  {
    var body := WireBody(e);
    var t := body + FRAME_SEPARATOR + more;
    var n := |PREFIX_EVENT + e.name|;
    forall j | 0 <= j < |body|
      ensures !SeparatorAt(t, j)
    {
      if j < n {
        assert t[j] == (PREFIX_EVENT + e.name)[j];
      } else if j == n {
        assert t[j + 1] == PREFIX_DATA[0];
      } else {
        assert t[j] == (PREFIX_DATA + e.data)[j - n - 1];
      }
    }
    SeparatorIndexUnique(t, |body|);
  }

  lemma {:induction false} WireFrames<E>(parse: Parse<E>, events: seq<WireEvent>)
    requires forall i | 0 <= i < |events| :: WellFormed(events[i])
    ensures Drain(WireText(events)).rest == ""
    ensures EventsOfFrames(parse, Drain(WireText(events)).complete) == Expected(parse, events)
    decreases |events|
  {
    if events != [] {
      var more := WireText(events[1..]);
      var t := WireText(events);
      BodySeparator(events[0], more);
      assert t[..|WireBody(events[0])|] == WireBody(events[0]);
      assert t[|WireBody(events[0])| + 2..] == more;
      WireFrames(parse, events[1..]);
      BodyFields(parse, events[0]);
      assert ([WireBody(events[0])] + Drain(more).complete)[1..] == Drain(more).complete;
    }
  }

  /** What a stream that breaks off holds after its last whole frame: nothing, or an event whose
      terminator is missing or cut in half. */
  datatype Rest = Nothing | Cut(event: WireEvent, newline: bool)

  predicate GoodRest(rest: Rest) {
    rest.Cut? ==> WellFormed(rest.event)
  }

  function RestText(rest: Rest): string {
    match rest
    case Nothing => ""
    case Cut(event, newline) => WireBody(event) + if newline then "\n" else ""
  }

  function ExpectedRest<E>(parse: Parse<E>, rest: Rest): seq<E> {
    match rest
    case Nothing => []
    case Cut(event, _) => Present(parse(event.name, event.data))
  }

  lemma RestIsOneFrame<E>(parse: Parse<E>, rest: Rest)
    requires GoodRest(rest)
    ensures Drain(RestText(rest)) == Frames([], RestText(rest))
    ensures Present(EventOf(parse, RestText(rest))) == ExpectedRest(parse, rest)
  {
    match rest
    case Nothing => NothingToSay(parse);
    case Cut(event, newline) =>
      var half := if newline then "\n" else "";
      CutHasNoSeparator(event, half);
      CutReadsAsWhole(parse, event, half);
      BodyFields(parse, event);
  }

  lemma CutHasNoSeparator(e: WireEvent, half: string)
    requires WellFormed(e) && (half == "" || half == "\n")
    ensures SeparatorIndex(WireBody(e) + half) == -1
  {
    var t, n := WireBody(e) + half, |WireBody(e)|;
    var whole := WireBody(e) + FRAME_SEPARATOR + "";
    BodySeparator(e, "");
    SeparatorIndexIsFirst(whole);
    assert forall j | 0 <= j < |t| :: t[j] == whole[j];
    forall j | 0 <= j
      ensures !SeparatorAt(t, j)
    {
      assert j < n ==> !SeparatorAt(whole, j);
    }
    SeparatorIndexIsFirst(t);
  }

  lemma CutReadsAsWhole<E>(parse: Parse<E>, e: WireEvent, half: string)
    requires WellFormed(e) && (half == "" || half == "\n")
    ensures EventOf(parse, WireBody(e) + half) == EventOf(parse, WireBody(e))
  {
    var body := WireBody(e);
    BodyTrimmed(e);
    assert body[0] == 'e' && body[|body| - 1] == e.data[|e.data| - 1];
    assert "" + body + half == body + half;
    TrimTight("", body, half);
  }

  /** Decoding undoes the wire framing: well formed frames, one after the other, give exactly their
      events in order, and so does a last one that the stream did not terminate. */
  lemma DecodingUndoesFraming<E>(parse: Parse<E>, events: seq<WireEvent>, rest: Rest)
    requires forall i | 0 <= i < |events| :: WellFormed(events[i])
    requires GoodRest(rest)
    ensures EventsOf(parse, WireText(events) + RestText(rest)) == Expected(parse, events) + ExpectedRest(parse, rest)
  {
    WireFrames(parse, events);
    RestIsOneFrame(parse, rest);
    DrainConcat(WireText(events), RestText(rest));
    assert "" + RestText(rest) == RestText(rest);
    assert Drain(WireText(events)).complete + [] == Drain(WireText(events)).complete;
  }

  lemma NothingToSay<E>(parse: Parse<E>)
    ensures EventOf(parse, "") == None
  {
    assert Blank("");
    TrimBlank("");
  }
}
