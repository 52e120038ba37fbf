/** The validator of a tool-call history, against a grammar of whole exchanges. */
module ToolHistory {
  import opened Wrappers
  import opened ChatMessages

  datatype HistoryError =
    | OrphanToolResult(index: nat)
    | UnsupportedRole(index: nat)
    | UserToolMetadata(index: nat)
    | AssistantResultMetadata(index: nat)
    | CallWithoutId(index: nat)
    | CallWithoutName(index: nat)
    | DuplicateCallId(index: nat)
    | InterruptsPending(index: nat)
    | ResultWithoutId(index: nat)
    | UnknownResultId(index: nat)
    | ResultWithCalls(index: nat)
    | EndsBeforeAllResults

  // ---- one message --------------------------------------------------------

  function CallIds(calls: seq<ToolCall>): (ids: seq<string>)
    ensures |ids| == |calls| && forall i | 0 <= i < |ids| :: ids[i] == calls[i].id
  {
    seq(|calls|, i requires 0 <= i < |calls| => calls[i].id)
  }

  ghost function IdSet(calls: seq<ToolCall>): set<string> {
    set id | id in CallIds(calls)
  }

  predicate GoodCalls(calls: seq<ToolCall>) {
    && (forall i | 0 <= i < |calls| :: calls[i].id != "" && calls[i].name != "")
    && forall i, j | 0 <= i < j < |calls| :: calls[i].id != calls[j].id
  }

  predicate PlainUser(m: Message) {
    m.role.User? && m.toolCallId == "" && m.toolCalls == [] && !m.isError
  }

  predicate Answer(m: Message) {
    m.role.Assistant? && m.toolCallId == "" && !m.isError && GoodCalls(m.toolCalls)
  }

  predicate ToolResult(m: Message) {
    m.role.Tool? && m.toolCallId != "" && m.toolCalls == []
  }

  ghost predicate Accepts(pending: set<string>, m: Message) {
    if pending != {} then ToolResult(m) && m.toolCallId in pending
    else PlainUser(m) || Answer(m)
  }

  ghost function Next(pending: set<string>, m: Message): set<string> {
    if pending != {} then pending - {m.toolCallId}
    else if m.role.Assistant? then IdSet(m.toolCalls)
    else {}
  }

  ghost predicate ValidFrom(pending: set<string>, messages: seq<Message>)
    decreases messages
  {
    if messages == [] then pending == {}
    else Accepts(pending, messages[0]) && ValidFrom(Next(pending, messages[0]), messages[1..])
  }

  ghost predicate ValidHistory(messages: seq<Message>) {
    ValidFrom({}, messages)
  }

  ghost function PendingAfter(pending: set<string>, messages: seq<Message>): set<string>
    decreases messages
  {
    if messages == [] then pending else PendingAfter(Next(pending, messages[0]), messages[1..])
  }

  /** What each error says of the message it names, given the calls that were pending before it. */
  ghost predicate Explains(error: HistoryError, pending: set<string>, m: Message) {
    match error
    case OrphanToolResult(_) => pending == {} && m.role.Tool?
    case UnsupportedRole(_) => pending == {} && (m.role.System? || m.role.Other?)
    case UserToolMetadata(_) => pending == {} && m.role.User? && (m.toolCallId != "" || m.toolCalls != [] || m.isError)
    case AssistantResultMetadata(_) => pending == {} && m.role.Assistant? && (m.toolCallId != "" || m.isError)
    case CallWithoutId(_) =>
      && pending == {} && m.role.Assistant?
      && exists i :: BadCall(m.toolCalls, i) && m.toolCalls[i].id == ""
    case CallWithoutName(_) =>
      && pending == {} && m.role.Assistant?
      && exists i :: BadCall(m.toolCalls, i) && m.toolCalls[i].id != "" && m.toolCalls[i].name == ""
    case DuplicateCallId(_) =>
      && pending == {} && m.role.Assistant?
      && exists i, j :: BadCall(m.toolCalls, i) && 0 <= j < i && m.toolCalls[j].id == m.toolCalls[i].id
    case InterruptsPending(_) => pending != {} && !m.role.Tool?
    case ResultWithoutId(_) => pending != {} && m.role.Tool? && m.toolCallId == ""
    case UnknownResultId(_) => pending != {} && m.role.Tool? && m.toolCallId != "" && m.toolCallId !in pending
    case ResultWithCalls(_) => m.toolCallId in pending && m.role.Tool? && m.toolCalls != []
    case EndsBeforeAllResults => false
  }

  /** Call `i` is the first that is not as it should be. */
  ghost predicate BadCall(calls: seq<ToolCall>, i: int) {
    0 <= i < |calls| && GoodCalls(calls[..i]) && !GoodCalls(calls[..i + 1])
  }

  class ToolHistoryValidator {
    var pending: set<string>

    constructor ()
      ensures pending == {}
    {
      pending := {};
    }

    method ValidateMessage(index: nat, m: Message) returns (error: Option<HistoryError>)
      modifies this
      ensures error.None? <==> Accepts(old(pending), m)
      ensures error.None? ==> pending == Next(old(pending), m)
      ensures error.Some? ==> Explains(error.value, old(pending), m) && error.value.index == index
    {
      if |pending| > 0 {
        error := ValidateToolResult(index, m);
        return;
      }
      match m.role {
        case User =>
          error := if m.toolCallId == "" && |m.toolCalls| == 0 && !m.isError then None
                   else Some(UserToolMetadata(index));
        case Assistant =>
          error := ValidateAssistantMessage(index, m);
        case Tool =>
          error := Some(OrphanToolResult(index));
        case _ =>
          error := Some(UnsupportedRole(index));
      }
    }

    method ValidateAssistantMessage(index: nat, m: Message) returns (error: Option<HistoryError>)
      requires pending == {} && m.role.Assistant?
      modifies this
      ensures error.None? <==> Answer(m)
      ensures error.None? ==> pending == IdSet(m.toolCalls)
      ensures error.Some? ==> Explains(error.value, {}, m) && error.value.index == index
    {
      if m.toolCallId != "" || m.isError {
        return Some(AssistantResultMetadata(index));
      }
      if |m.toolCalls| == 0 {
        return None;
      }
      pending := {};
      for i := 0 to |m.toolCalls|
        invariant pending == IdSet(m.toolCalls[..i]) && GoodCalls(m.toolCalls[..i])
      {
        assert m.toolCalls[..i + 1] == m.toolCalls[..i] + [m.toolCalls[i]];
        IdSetSnoc(m.toolCalls[..i], m.toolCalls[i]);
        error := AddToolCall(index, m.toolCalls[i]);
        if error.Some? {
          BadCallFound(m.toolCalls, i);
          return;
        }
      }
      assert m.toolCalls[..|m.toolCalls|] == m.toolCalls;
      return None;
    }

    method AddToolCall(index: nat, call: ToolCall) returns (error: Option<HistoryError>)
      modifies this
      ensures error.None? <==> call.id != "" && call.name != "" && call.id !in old(pending)
      ensures error.None? ==> pending == old(pending) + {call.id}
      ensures error.Some? ==>
                error.value == if call.id == "" then CallWithoutId(index)
                               else if call.name == "" then CallWithoutName(index)
                               else DuplicateCallId(index)
    {
      if call.id == "" {
        return Some(CallWithoutId(index));
      }
      if call.name == "" {
        return Some(CallWithoutName(index));
      }
      if call.id in pending {
        return Some(DuplicateCallId(index));
      }
      pending := pending + {call.id};
      return None;
    }

    method ValidateToolResult(index: nat, m: Message) returns (error: Option<HistoryError>)
      requires pending != {}
      modifies this
      ensures error.None? <==> Accepts(old(pending), m)
      ensures error.None? ==> pending == Next(old(pending), m)
      ensures error.Some? ==> Explains(error.value, old(pending), m) && error.value.index == index
    {
      if !m.role.Tool? {
        return Some(InterruptsPending(index));
      }
      if m.toolCallId == "" {
        return Some(ResultWithoutId(index));
      }
      if m.toolCallId !in pending {
        return Some(UnknownResultId(index));
      }
      if |m.toolCalls| > 0 {
        return Some(ResultWithCalls(index));
      }
      pending := pending - {m.toolCallId};
      return None;
    }
  }

  lemma BadCallFound(calls: seq<ToolCall>, i: nat)
    requires i < |calls| && GoodCalls(calls[..i])
    requires calls[i].id == "" || calls[i].name == "" || calls[i].id in IdSet(calls[..i])
    ensures BadCall(calls, i)
    ensures calls[i].id in IdSet(calls[..i]) ==> exists j :: 0 <= j < i && calls[j].id == calls[i].id
  {
    IdsByIndex(calls[..i]);
    var next := calls[..i + 1];
    assert next[i] == calls[i];
    if calls[i].id in IdSet(calls[..i]) {
      var j :| 0 <= j < i && calls[..i][j].id == calls[i].id;
      assert next[j].id == next[i].id;
    }
  }

  lemma IdSetSnoc(calls: seq<ToolCall>, call: ToolCall)
    ensures IdSet(calls + [call]) == IdSet(calls) + {call.id}
  {
    var ids := CallIds(calls + [call]);
    assert ids == CallIds(calls) + [call.id];
  }

  /** The first message that is rejected, all before it being accepted. */
  ghost predicate FirstRejected(pending: set<string>, messages: seq<Message>, k: nat)
    decreases k
  {
    && k < |messages|
    && if k == 0 then !Accepts(pending, messages[0])
       else Accepts(pending, messages[0]) && FirstRejected(Next(pending, messages[0]), messages[1..], k - 1)
  }

  ghost predicate AllAccepted(pending: set<string>, messages: seq<Message>)
    decreases messages
  {
    messages == [] || (Accepts(pending, messages[0]) && AllAccepted(Next(pending, messages[0]), messages[1..]))
  }

  lemma {:induction false} RejectedMeansInvalid(pending: set<string>, messages: seq<Message>, k: nat)
    ensures FirstRejected(pending, messages, k) ==> !AllAccepted(pending, messages) && !ValidFrom(pending, messages)
    ensures AllAccepted(pending, messages) && PendingAfter(pending, messages) != {} ==> !ValidFrom(pending, messages)
    decreases |messages|
  {
    if messages != [] {
      RejectedMeansInvalid(Next(pending, messages[0]), messages[1..], if k > 0 then k - 1 else 0);
    }
  }

  lemma {:induction false} PendingSnoc(pending: set<string>, messages: seq<Message>, m: Message)
    ensures PendingAfter(pending, messages + [m]) == Next(PendingAfter(pending, messages), m)
    decreases |messages|
  {
    if messages == [] {
      assert [m][1..] == [];
    } else {
      assert (messages + [m])[1..] == messages[1..] + [m];
      PendingSnoc(Next(pending, messages[0]), messages[1..], m);
    }
  }

  /** What is rejected of the messages from `i` on is rejected of all of them. */
  ghost predicate RejectsAlike(messages: seq<Message>, i: nat, pending: set<string>)
    requires i <= |messages|
  {
    forall k: nat | i <= k :: FirstRejected(pending, messages[i..], k - i) ==> FirstRejected({}, messages, k)
  }

  lemma RejectsNext(messages: seq<Message>, i: nat, pending: set<string>)
    requires i < |messages| && RejectsAlike(messages, i, pending) && Accepts(pending, messages[i])
    ensures RejectsAlike(messages, i + 1, Next(pending, messages[i]))
  {
    assert messages[i..][0] == messages[i] && messages[i..][1..] == messages[i + 1..];
    forall k: nat | i < k && FirstRejected(Next(pending, messages[i]), messages[i + 1..], k - i - 1)
      ensures FirstRejected({}, messages, k)
    {
      assert FirstRejected(pending, messages[i..], k - i);
    }
  }

  /** Accepts exactly the valid histories; otherwise reports the first offending message, or that
      the history ends while results are missing. */
  method ValidateToolHistory(messages: seq<Message>) returns (error: Option<HistoryError>)
    ensures error.None? <==> ValidHistory(messages)
    ensures error.Some? && !error.value.EndsBeforeAllResults? ==>
              var k := error.value.index;
              && FirstRejected({}, messages, k)
              && Explains(error.value, PendingAfter({}, messages[..k]), messages[k])
    ensures error == Some(EndsBeforeAllResults) ==> AllAccepted({}, messages) && PendingAfter({}, messages) != {}
  {
    var validator := new ToolHistoryValidator();
    for i := 0 to |messages|
      invariant ValidHistory(messages) <==> ValidFrom(validator.pending, messages[i..])
      invariant AllAccepted({}, messages) <==> AllAccepted(validator.pending, messages[i..])
      invariant PendingAfter({}, messages) == PendingAfter(validator.pending, messages[i..])
      invariant validator.pending == PendingAfter({}, messages[..i])
      invariant RejectsAlike(messages, i, validator.pending)
    {
      assert messages[i..][0] == messages[i] && messages[i..][1..] == messages[i + 1..];
      ghost var before := validator.pending;
      error := validator.ValidateMessage(i, messages[i]);
      if error.Some? {
        assert FirstRejected(before, messages[i..], 0);
        RejectedMeansInvalid(before, messages[i..], 0);
        return;
      }
      PendingSnoc({}, messages[..i], messages[i]);
      assert messages[..i + 1] == messages[..i] + [messages[i]];
      RejectsNext(messages, i, before);
    }
    if |validator.pending| > 0 {
      return Some(EndsBeforeAllResults);
    }
    return None;
  }

  // ---- the grammar --------------------------------------------------------

  /** An assistant message with calls, each with an id of its own and a name, and, in any order, exactly one
      result for each of them; no message has what belongs to another kind. */
  ghost predicate Exchange(unit: seq<Message>) {
    && unit != [] && unit[0].role.Assistant? && unit[0].toolCallId == "" && !unit[0].isError
    && var calls := unit[0].toolCalls;
       && calls != []
       && (forall i | 0 <= i < |calls| :: calls[i].id != "" && calls[i].name != "")
       && (forall i, j | 0 <= i < j < |calls| :: calls[i].id != calls[j].id)
       && (forall i | 1 <= i < |unit| :: unit[i].role.Tool? && unit[i].toolCallId != "" && unit[i].toolCalls == [])
       && (forall i, j | 1 <= i < j < |unit| :: unit[i].toolCallId != unit[j].toolCallId)
       && (set i | 1 <= i < |unit| :: unit[i].toolCallId) == (set i | 0 <= i < |calls| :: calls[i].id)
  }

  /** A plain user or assistant message, or an exchange. */
  ghost predicate WholeUnit(unit: seq<Message>) {
    || (&& |unit| == 1 && (unit[0].role.User? || unit[0].role.Assistant?)
        && unit[0].toolCallId == "" && unit[0].toolCalls == [] && !unit[0].isError)
    || Exchange(unit)
  }

  lemma ExchangeParts(unit: seq<Message>)
    requires unit != []
    ensures Exchange(unit)
       <==> && Answer(unit[0]) && unit[0].toolCalls != []
            && (forall i | 1 <= i < |unit| :: ToolResult(unit[i]))
            && (forall i, j | 1 <= i < j < |unit| :: unit[i].toolCallId != unit[j].toolCallId)
            && (set i | 1 <= i < |unit| :: unit[i].toolCallId) == IdSet(unit[0].toolCalls)
  {
    IdsByIndex(unit[0].toolCalls);
  }

  lemma IdsByIndex(calls: seq<ToolCall>)
    ensures IdSet(calls) == set i | 0 <= i < |calls| :: calls[i].id
  {
    var ids := CallIds(calls);
    assert forall i | 0 <= i < |calls| :: calls[i].id == ids[i] && ids[i] in IdSet(calls);
  }

  function Flatten(units: seq<seq<Message>>): seq<Message> {
    if units == [] then [] else units[0] + Flatten(units[1..])
  }

  lemma {:induction false} FlattenConcat(a: seq<seq<Message>>, b: seq<seq<Message>>)
    ensures Flatten(a + b) == Flatten(a) + Flatten(b)
    decreases |a|
  {
    if a == [] {
      assert a + b == b;
    } else {
      assert (a + b)[0] == a[0] && (a + b)[1..] == a[1..] + b;
      FlattenConcat(a[1..], b);
      assert a[0] + (Flatten(a[1..]) + Flatten(b)) == a[0] + Flatten(a[1..]) + Flatten(b);
    }
  }

  // ---- validity piece by piece --------------------------------------------

  lemma {:induction false} ValidConcat(pending: set<string>, a: seq<Message>, b: seq<Message>)
    requires ValidFrom(pending, a)
    ensures ValidFrom(pending, a + b) <==> ValidHistory(b)
    decreases |a|
  {
    if a == [] {
      assert a + b == b;
    } else {
      assert (a + b)[0] == a[0] && (a + b)[1..] == a[1..] + b;
      ValidConcat(Next(pending, a[0]), a[1..], b);
    }
  }

  /** Distinct results for exactly the pending calls settle them. */
  lemma {:induction false} ResultsSettle(pending: set<string>, results: seq<Message>)
    requires forall i | 0 <= i < |results| :: ToolResult(results[i])
    requires forall i, j | 0 <= i < j < |results| :: results[i].toolCallId != results[j].toolCallId
    requires (set i | 0 <= i < |results| :: results[i].toolCallId) == pending
    ensures ValidFrom(pending, results)
    decreases |results|
  {
    if results == [] {
      assert pending == {};
    } else {
      var rest := results[1..];
      var ids := set i | 0 <= i < |rest| :: rest[i].toolCallId;
      assert results[0].toolCallId in pending;
      assert Next(pending, results[0]) == ids by {
        assert forall i | 0 <= i < |rest| :: rest[i] == results[i + 1];
        forall id | id in pending && id != results[0].toolCallId
          ensures id in ids
        {
          var i :| 0 <= i < |results| && results[i].toolCallId == id;
          assert rest[i - 1].toolCallId == id;
        }
      }
      ResultsSettle(ids, rest);
    }
  }

  /** With calls pending, a valid history opens with their results and goes on validly after them. */
  lemma {:induction false} PendingOpens(pending: set<string>, messages: seq<Message>) returns (n: nat)
    requires ValidFrom(pending, messages)
    ensures n <= |messages| && ValidHistory(messages[n..])
    ensures forall i | 0 <= i < n :: ToolResult(messages[i])
    ensures forall i, j | 0 <= i < j < n :: messages[i].toolCallId != messages[j].toolCallId
    ensures (set i | 0 <= i < n :: messages[i].toolCallId) == pending
    ensures n == |messages| || !messages[n].role.Tool?
    decreases |messages|
  {
    if pending == {} {
      n := 0;
      assert messages[0..] == messages;
    } else {
      var id := messages[0].toolCallId;
      var m := PendingOpens(pending - {id}, messages[1..]);
      n := m + 1;
      assert messages[n..] == messages[1..][m..];
      assert forall i | 1 <= i < n :: messages[i] == messages[1..][i - 1];
      ShiftedIds(messages, m);
    }
  }

  lemma ShiftedIds(messages: seq<Message>, m: nat)
    requires m < |messages|
    ensures (set i | 0 <= i < m + 1 :: messages[i].toolCallId)
         == {messages[0].toolCallId} + (set i | 0 <= i < m :: messages[1..][i].toolCallId)
  {
    forall i | 0 <= i < m
      ensures messages[1..][i].toolCallId in (set j | 0 <= j < m + 1 :: messages[j].toolCallId)
    {
      assert messages[1..][i] == messages[i + 1];
    }
    forall i | 1 <= i < m + 1
      ensures messages[i].toolCallId in (set j | 0 <= j < m :: messages[1..][j].toolCallId)
    {
      assert messages[i] == messages[1..][i - 1];
    }
  }

  lemma WholeUnitIsValid(unit: seq<Message>)
    requires WholeUnit(unit)
    ensures ValidHistory(unit)
  {
    var results := unit[1..];
    ExchangeParts(unit);
    assert Accepts({}, unit[0]);
    if Exchange(unit) {
      var ids := set i | 0 <= i < |results| :: results[i].toolCallId;
      assert ids == IdSet(unit[0].toolCalls) by {
        assert forall i | 1 <= i < |unit| :: unit[i] == results[i - 1];
        assert forall i | 0 <= i < |results| :: results[i] == unit[i + 1];
        if unit != [] && |unit| > 0 {
          ShiftedResults(unit);
        }
      }
      ResultsSettle(ids, results);
    } else {
      assert CallIds([]) == [];
      assert IdSet(unit[0].toolCalls) == {};
      assert ValidFrom({}, results);
    }
  }

  lemma ShiftedResults(unit: seq<Message>)
    requires unit != []
    ensures (set i | 1 <= i < |unit| :: unit[i].toolCallId) == (set i | 0 <= i < |unit[1..]| :: unit[1..][i].toolCallId)
  {
    var results := unit[1..];
    forall i | 1 <= i < |unit|
      ensures unit[i].toolCallId in (set j | 0 <= j < |results| :: results[j].toolCallId)
    {
      assert results[i - 1] == unit[i];
    }
    forall i | 0 <= i < |results|
      ensures results[i].toolCallId in (set j | 1 <= j < |unit| :: unit[j].toolCallId)
    {
      assert results[i] == unit[i + 1];
    }
  }

  /** Valid turns one after the other make a valid history. */
  lemma {:induction false} FlattenIsValid(units: seq<seq<Message>>)
    requires forall i | 0 <= i < |units| :: ValidHistory(units[i])
    ensures ValidHistory(Flatten(units))
    decreases |units|
  {
    if units != [] {
      FlattenIsValid(units[1..]);
      ValidConcat({}, units[0], Flatten(units[1..]));
    }
  }
}
