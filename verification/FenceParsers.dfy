/** The incremental segmenter of a streamed message, updated in place line by line. */
module FenceParsers {
  import opened Wrappers
  import opened Text
  import opened PatchAccumulators
  import opened FenceSpec

  class FenceParser<S, P> {
    const core: Core<S, P>
    const patch: PatchAccumulator
    var segments: seq<Segment<S>>
    var buffer: string
    var inSpecFence: bool
    var activeSpecIndex: int
    /** The callbacks, in the order they fire. */
    var events: seq<Event>

    function Current(): State<S>
      reads this, patch
    {
      State(segments, inSpecFence, activeSpecIndex, patch.Contents(), events)
    }

    function View(): Parser<S>
      reads this, patch
    {
      Parser(Current(), buffer)
    }

    constructor (core: Core<S, P>)
      ensures View() == Initial() && this.core == core && fresh(patch)
    {
      this.core := core;
      patch := new PatchAccumulator();
      segments, buffer, inSpecFence, activeSpecIndex, events := [], "", false, -1, [];
    }

    method Push(chunk: string)
      modifies this, patch
      ensures View() == FenceSpec.Push(core, old(View()), chunk)
    {
      var split := SplitLines(buffer + chunk);
      buffer := split.rest;
      var lines := split.lines;
      ghost var target := ProcessLines(core, Current(), lines);
      for i := 0 to |lines|
        invariant buffer == split.rest
        invariant ProcessLines(core, Current(), lines[i..]) == target
      {
        assert lines[i..][1..] == lines[i + 1..];
        ProcessOne(lines[i], true);
      }
    }

    method Flush(final: bool)
      modifies this, patch
      ensures View() == FenceSpec.Flush(core, old(View()), final)
    {
      if buffer != "" {
        ProcessOne(buffer, false);
        buffer := "";
      }
      if final && Trim(patch.text) != "" {
        var salvaged := TrySalvage();
        if !salvaged {
          events := events + [SpecError(Unterminated, Trim(patch.text))];
        }
      }
      patch.Reset();
      if inSpecFence {
        inSpecFence := false;
      }
    }

    method ProcessOne(line: string, hadNewline: bool)
      modifies this, patch
      ensures Current() == ProcessLine(core, old(Current()), line, hadNewline)
      ensures buffer == old(buffer)
    {
      var trimmed := Trim(line);
      if !inSpecFence && SPEC_FENCE_OPEN <= trimmed {
        OpenBlock();
        return;
      }
      if inSpecFence && trimmed == SPEC_FENCE_CLOSE {
        CloseBlock();
        return;
      }
      if inSpecFence {
        ApplyLine(line, hadNewline);
        return;
      }
      Append(if hadNewline then line + "\n" else line);
    }

    method OpenBlock()
      modifies this, patch
      ensures Current() == OpenSpec(core, old(Current()))
      ensures buffer == old(buffer)
    {
      inSpecFence := true;
      patch.Reset();
      segments := segments + [SpecSegment(core.empty, 0, false)];
      activeSpecIndex := |segments| - 1;
      events := events + [SpecOpened];
    }

    /** The closing marker, in the middle of a patch or not. */
    method CloseBlock()
      modifies this, patch
      ensures Current() == CloseSpec(core, old(Current()))
      ensures buffer == old(buffer)
    {
      if Trim(patch.text) != "" && !IsComplete(patch.Contents().scan) {
        var salvaged := TrySalvage();
        if !salvaged {
          events := events + [SpecError(ClosedMidPatch, Trim(patch.text))];
        }
      }
      patch.Reset();
      inSpecFence := false;
      if 0 <= activeSpecIndex < |segments| && segments[activeSpecIndex].SpecSegment? {
        segments := segments[activeSpecIndex := segments[activeSpecIndex].(closed := true)];
      }
      activeSpecIndex := -1;
    }

    method ApplyLine(line: string, hadNewline: bool)
      modifies this, patch
      ensures Current() == ApplyPatchLine(core, old(Current()), line, hadNewline)
      ensures buffer == old(buffer)
    {
      var trimmed := Trim(line);
      if Trim(patch.text) == "" && trimmed == "" {
        return;
      }
      DropTruncated(trimmed);
      if Trim(patch.text) == "" && !("{" <= trimmed) {
        events := events + [SpecError(Unparseable, trimmed)];
        return;
      }
      patch.Feed(if hadNewline then line + "\n" else line);
      Settle();
    }

    method DropTruncated(trimmed: string)
      modifies this, patch
      ensures Current() == Ready(core, old(Current()), trimmed)
      ensures buffer == old(buffer)
    {
      if Trim(patch.text) != "" && !IsComplete(patch.Contents().scan) && OpPatchLine(trimmed) {
        var salvaged := TrySalvage();
        if !salvaged {
          events := events + [SpecError(Truncated, Trim(patch.text))];
          patch.Reset();
        }
      }
    }

    /** After a line was fed: report what can never complete, wait for more, or apply. */
    method Settle()
      modifies this, patch
      ensures Current() == Absorb(core, old(Current()))
      ensures buffer == old(buffer)
    {
      if patch.depth < 0 {
        events := events + [SpecError(Unparseable, Trim(patch.text))];
        patch.Reset();
        return;
      }
      if !IsComplete(patch.Contents().scan) {
        return;
      }
      var raw := Trim(patch.text);
      patch.Reset();
      ApplyPatch(raw);
    }

    method ApplyPatch(raw: string)
      modifies this
      ensures Current() == ApplyRaw(core, old(Current()), raw)
      ensures buffer == old(buffer)
    {
      if raw == "" {
        return;
      }
      if !(0 <= activeSpecIndex < |segments|) || !segments[activeSpecIndex].SpecSegment? {
        return;
      }
      var segment := segments[activeSpecIndex];
      match core.parse(raw) {
        case None =>
          events := events + [SpecError(Unparseable, raw)];
        case Some(p) =>
          var count := segment.patchCount + 1;
          segments := segments[activeSpecIndex := segment.(spec := core.apply(segment.spec, p), patchCount := count)];
          events := events + [PatchApplied(activeSpecIndex, count)];
      }
    }

    method TrySalvage() returns (salvaged: bool)
      modifies this, patch
      ensures salvaged == Salvageable(core, old(Current()))
      ensures Current() == Salvage(core, old(Current()))
      ensures buffer == old(buffer)
    {
      if !CanRepair(patch.Contents().scan) {
        return false;
      }
      var repaired := patch.RepairedText();
      if core.parse(repaired).None? {
        return false;
      }
      patch.Reset();
      ApplyPatch(repaired);
      return true;
    }

    method Append(text: string)
      modifies this
      ensures Current() == AppendText(old(Current()), text)
      ensures buffer == old(buffer)
    {
      if text == "" {
        return;
      }
      var n := |segments|;
      if n > 0 && segments[n - 1].TextSegment? {
        segments := segments[n - 1 := TextSegment(segments[n - 1].text + text)];
        return;
      }
      segments := segments + [TextSegment(text)];
    }
  }

  /** A message through a fresh parser. */
  method ParseMessageSegments<S, P>(core: Core<S, P>, message: string, finalize: bool)
    returns (segments: seq<Segment<S>>, events: seq<Event>)
    ensures segments == ParseMessage(core, message, finalize).segments
    ensures events == ParseMessage(core, message, finalize).events
  {
    var parser := new FenceParser(core);
    parser.Push(message);
    parser.Flush(finalize);
    segments, events := parser.segments, parser.events;
  }
}
