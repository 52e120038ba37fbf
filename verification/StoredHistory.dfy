/** Storing the messages of a turn as rows, and loading a chat's history back from rows. */
module StoredHistory {
  import opened Collections
  import opened Wrappers
  import opened ChatMessages
  import opened ToolHistory

  /** The text column that holds tool calls: empty, a stored list, or text that does not decode. */
  datatype CallColumn = NoCalls | Calls(calls: seq<ToolCall>) | Garbled

  datatype Row = Row(
    turnId: string,
    complete: bool,
    role: Role,
    content: string,
    reasoning: string,
    providerReasoning: string,
    calls: CallColumn,
    toolCallId: string,
    isError: bool,
    isInjection: bool)

  datatype StoreError = NilRow | BadReasoning | BadCalls | NothingReplayable

  /** Whether a text is valid JSON. */
  type Json = string -> bool

  const NIL_TURN := ""

  function Prepend<T>(xs: seq<T>, r: Result<seq<T>, StoreError>): Result<seq<T>, StoreError> {
    if r.Ok? then Ok(xs + r.value) else r
  }

  lemma PrependNothing<T>(xs: seq<T>, r: Result<seq<T>, StoreError>)
    ensures Prepend([], r) == r && Prepend(xs, Ok([])) == Ok(xs)
  {
    if r.Ok? {
      assert [] + r.value == r.value;
    }
    assert xs + [] == xs;
  }

  lemma PrependTwice<T>(xs: seq<T>, ys: seq<T>, r: Result<seq<T>, StoreError>)
    ensures Prepend(xs, Prepend(ys, r)) == Prepend(xs + ys, r)
  {
    if r.Ok? {
      assert xs + (ys + r.value) == xs + ys + r.value;
    }
  }

  // ---- storing ------------------------------------------------------------

  /** Injections are re-created by the next run, except one that a run ended on. */
  predicate BelongsInStoredHistory(messages: seq<Message>, index: nat)
    requires index < |messages|
  {
    || messages[index].origin.Turn?
    || (messages[index].origin.Injection? && index == |messages| - 1)
  }

  predicate ArgumentsValid(json: Json, calls: seq<ToolCall>) {
    forall i | 0 <= i < |calls| :: json(calls[i].arguments)
  }

  /** The row of a message; the turn id and the completion mark are those the turn is persisted with. */
  function ToMessageRow(json: Json, turnId: string, m: Message): Result<Row, StoreError> {
    if m.role.Assistant? && m.providerReasoning != "" && !json(m.providerReasoning) then Err(BadReasoning)
    else if !ArgumentsValid(json, m.toolCalls) then Err(BadCalls)
    else
      Ok(Row(turnId, true, m.role, m.text, m.reasoning,
             if m.role.Assistant? then m.providerReasoning else "",
             if m.toolCalls == [] then NoCalls else Calls(m.toolCalls),
             m.toolCallId, m.isError, m.origin.Injection?))
  }

  function RowsFor(json: Json, turnId: string, messages: seq<Message>): Result<seq<Row>, StoreError> {
    if messages == [] then Ok([])
    else if !BelongsInStoredHistory(messages, 0) then RowsFor(json, turnId, messages[1..])
    else
      var row := ToMessageRow(json, turnId, messages[0]);
      if row.Err? then Err(row.error) else Prepend([row.value], RowsFor(json, turnId, messages[1..]))
  }

  method TurnRows(json: Json, turnId: string, messages: seq<Message>) returns (r: Result<seq<Row>, StoreError>)
    ensures r == RowsFor(json, turnId, messages)
  {
    var rows: seq<Row> := [];
    assert messages[0..] == messages;
    PrependNothing(rows, RowsFor(json, turnId, messages));
    for index := 0 to |messages|
      invariant RowsFor(json, turnId, messages) == Prepend(rows, RowsFor(json, turnId, messages[index..]))
    {
      assert messages[index..][0] == messages[index] && messages[index..][1..] == messages[index + 1..];
      assert BelongsInStoredHistory(messages, index) <==> BelongsInStoredHistory(messages[index..], 0);
      if !BelongsInStoredHistory(messages, index) {
        continue;
      }
      var row := ToMessageRow(json, turnId, messages[index]);
      if row.Err? {
        return Err(row.error);
      }
      PrependTwice(rows, [row.value], RowsFor(json, turnId, messages[index + 1..]));
      rows := rows + [row.value];
    }
    PrependNothing(rows, Ok([]));
    return Ok(rows);
  }

  // ---- loading one row ----------------------------------------------------

  /** A system row is replayable only as an injection this service wrote. */
  predicate IsDurableMessage(row: Row) {
    if row.role.System? then row.isInjection else row.role.User? || row.role.Assistant? || row.role.Tool?
  }

  predicate ShouldSkipEmptyAssistant(m: Message) {
    && m.role.Assistant? && m.text == "" && m.toolCalls == [] && m.providerReasoning == ""
    && m.toolCallId == "" && !m.isError
  }

  function StoredToolCalls(json: Json, column: CallColumn): Result<seq<ToolCall>, StoreError> {
    match column
    case NoCalls => Ok([])
    case Garbled => Err(BadCalls)
    case Calls(calls) => if ArgumentsValid(json, calls) then Ok(calls) else Err(BadCalls)
  }

  /** The message a row stands for, if it is to be replayed at all. */
  function MessageFromRow(json: Json, row: Option<Row>): Result<Option<Message>, StoreError> {
    if row.None? then Err(NilRow)
    else if !IsDurableMessage(row.value) then Ok(None)
    else if row.value.providerReasoning != "" && !json(row.value.providerReasoning) then Err(BadReasoning)
    else
      var calls := StoredToolCalls(json, row.value.calls);
      if calls.Err? then Err(calls.error)
      else
        var m := Message(row.value.role, row.value.content, calls.value, row.value.toolCallId, row.value.isError, "",
                         if row.value.role.Assistant? then row.value.providerReasoning else "",
                         if row.value.isInjection then Injection else UnknownOrigin);
        Ok(if ShouldSkipEmptyAssistant(m) then None else Some(m))
  }

  // ---- loading a turn -----------------------------------------------------

  function Replay(json: Json, rows: seq<Option<Row>>): Result<seq<Message>, StoreError> {
    if rows == [] then Ok([])
    else
      var m := MessageFromRow(json, rows[0]);
      if m.Err? then Err(m.error)
      else Prepend(if m.value.Some? then [m.value.value] else [], Replay(json, rows[1..]))
  }

  /** A row that this service would replay but cannot read: its calls do not decode, or their arguments
      or the provider's reasoning are no JSON. */
  ghost predicate Corrupted(json: Json, row: Option<Row>) {
    || row.None?
    || (&& (row.value.role.User? || row.value.role.Assistant? || row.value.role.Tool?
            || (row.value.role.System? && row.value.isInjection))
        && (|| (row.value.providerReasoning != "" && !json(row.value.providerReasoning))
            || row.value.calls.Garbled?
            || (row.value.calls.Calls? && exists i | 0 <= i < |row.value.calls.calls| ::
                  !json(row.value.calls.calls[i].arguments))))
  }

  /** What is reported of a corrupted row. */
  ghost function Corruption(json: Json, row: Option<Row>): StoreError {
    if row.None? then NilRow
    else if row.value.providerReasoning != "" && !json(row.value.providerReasoning) then BadReasoning
    else BadCalls
  }

  /** A row that says nothing a model could use: an assistant's without text, calls, provider reasoning or
      anything of a result. */
  predicate SaysNothing(row: Row) {
    && row.role.Assistant? && row.content == "" && row.providerReasoning == ""
    && (row.calls.NoCalls? || (row.calls.Calls? && row.calls.calls == []))
    && row.toolCallId == "" && !row.isError
  }

  /** A row that is not corrupted is replayed exactly when it is of a role that is replayed, or an injection,
      and says something; its message then says what the row says, provider reasoning only for the assistant. */
  lemma RowIsReplayed(json: Json, row: Row)
    requires !Corrupted(json, Some(row))
    ensures var m := MessageFromRow(json, Some(row));
            && m.Ok?
            && (m.value.Some? <==>
                  && (row.role.User? || row.role.Assistant? || row.role.Tool? || (row.role.System? && row.isInjection))
                  && !SaysNothing(row))
            && (m.value.Some? ==>
                  m.value.value == Message(
                    row.role, row.content, if row.calls.Calls? then row.calls.calls else [], row.toolCallId,
                    row.isError, "", if row.role.Assistant? then row.providerReasoning else "",
                    if row.isInjection then Injection else UnknownOrigin))
  {}

  /** Row `i` is the first corrupted one, and the error says how. */
  ghost predicate FailsAt(json: Json, rows: seq<Option<Row>>, i: nat, error: StoreError) {
    && i < |rows| && Corrupted(json, rows[i]) && error == Corruption(json, rows[i])
    && forall j | 0 <= j < i :: !Corrupted(json, rows[j])
  }

  lemma RowFails(json: Json, row: Option<Row>)
    ensures var m := MessageFromRow(json, row);
            if Corrupted(json, row) then m == Err(Corruption(json, row)) else m.Ok?
  {}

  lemma {:induction false} ReplayFailure(json: Json, rows: seq<Option<Row>>) returns (i: nat)
    requires Replay(json, rows).Err?
    ensures FailsAt(json, rows, i, Replay(json, rows).error)
    decreases |rows|
  {
    RowFails(json, rows[0]);
    if Corrupted(json, rows[0]) {
      i := 0;
    } else {
      var j := ReplayFailure(json, rows[1..]);
      i := j + 1;
      assert forall k | 1 <= k <= i :: rows[k] == rows[1..][k - 1];
    }
  }

  lemma {:induction false} ReplayReadsAll(json: Json, rows: seq<Option<Row>>)
    requires Replay(json, rows).Ok?
    ensures forall i | 0 <= i < |rows| :: !Corrupted(json, rows[i])
    decreases |rows|
  {
    if rows != [] {
      RowFails(json, rows[0]);
      ReplayReadsAll(json, rows[1..]);
      assert forall i | 1 <= i < |rows| :: rows[i] == rows[1..][i - 1];
    }
  }

  /** Replaying fails exactly when some row is corrupted, and reports the first such row. */
  lemma ReplayFailsExactlyOnCorruptedRow(json: Json, rows: seq<Option<Row>>)
    ensures Replay(json, rows).Err? <==> exists i :: 0 <= i < |rows| && Corrupted(json, rows[i])
    ensures Replay(json, rows).Err? ==> exists i :: FailsAt(json, rows, i, Replay(json, rows).error)
  {
    if Replay(json, rows).Err? {
      var i := ReplayFailure(json, rows);
    } else {
      ReplayReadsAll(json, rows);
    }
  }

  method HistoryMessagesFromRows(json: Json, rows: seq<Option<Row>>) returns (r: Result<seq<Message>, StoreError>)
    ensures r == if Replay(json, rows) == Ok([]) then Err(NothingReplayable) else Replay(json, rows)
  {
    var messages: seq<Message> := [];
    assert rows[0..] == rows;
    PrependNothing(messages, Replay(json, rows));
    for i := 0 to |rows|
      invariant Replay(json, rows) == Prepend(messages, Replay(json, rows[i..]))
    {
      assert rows[i..][0] == rows[i] && rows[i..][1..] == rows[i + 1..];
      var m := MessageFromRow(json, rows[i]);
      if m.Err? {
        return Err(m.error);
      }
      if m.value.None? {
        PrependTwice(messages, [], Replay(json, rows[i + 1..]));
        assert messages + [] == messages;
        continue;
      }
      PrependTwice(messages, [m.value.value], Replay(json, rows[i + 1..]));
      messages := messages + [m.value.value];
    }
    PrependNothing(messages, Ok([]));
    if |messages| == 0 {
      return Err(NothingReplayable);
    }
    return Ok(messages);
  }

  // ---- grouping rows by turn ----------------------------------------------

  datatype PersistedTurn = PersistedTurn(id: string, rows: seq<Option<Row>>)

  function TurnOf(row: Option<Row>): string {
    if row.Some? then row.value.turnId else NIL_TURN
  }

  /** Turn ids in the order in which they first appear. */
  function TurnIds(rows: seq<Option<Row>>): seq<string> {
    if rows == [] then []
    else
      var earlier := TurnIds(rows[..|rows| - 1]);
      var id := TurnOf(rows[|rows| - 1]);
      if id in earlier then earlier else earlier + [id]
  }

  function RowsOf(id: string, rows: seq<Option<Row>>): seq<Option<Row>> {
    if rows == [] then []
    else
      var last := rows[|rows| - 1];
      RowsOf(id, rows[..|rows| - 1]) + if TurnOf(last) == id then [last] else []
  }

  ghost predicate Groups(turns: seq<PersistedTurn>, rows: seq<Option<Row>>) {
    && |turns| == |TurnIds(rows)|
    && forall i | 0 <= i < |turns| ::
         turns[i].id == TurnIds(rows)[i] && turns[i].rows == RowsOf(turns[i].id, rows)
  }

  ghost predicate Indexes(indexes: map<string, nat>, ids: seq<string>) {
    && (forall id | id in ids :: id in indexes)
    && forall id | id in indexes :: indexes[id] < |ids| && ids[indexes[id]] == id
  }

  lemma {:induction false} IdsAreDistinct(rows: seq<Option<Row>>)
    ensures forall i, j | 0 <= i < j < |TurnIds(rows)| :: TurnIds(rows)[i] != TurnIds(rows)[j]
    decreases |rows|
  {
    if rows != [] {
      IdsAreDistinct(rows[..|rows| - 1]);
    }
  }

  lemma {:induction false} IdsAreThoseOfRows(rows: seq<Option<Row>>, id: string)
    ensures id in TurnIds(rows) <==> RowsOf(id, rows) != []
    decreases |rows|
  {
    if rows != [] {
      IdsAreThoseOfRows(rows[..|rows| - 1], id);
    }
  }

  lemma GroupsSnoc(rows: seq<Option<Row>>, row: Option<Row>, id: string)
    ensures TurnIds(rows + [row])
         == TurnIds(rows) + if TurnOf(row) in TurnIds(rows) then [] else [TurnOf(row)]
    ensures RowsOf(id, rows + [row]) == RowsOf(id, rows) + if TurnOf(row) == id then [row] else []
  {
    assert (rows + [row])[..|rows|] == rows;
  }

  lemma RowJoinsTurn(turns: seq<PersistedTurn>, rows: seq<Option<Row>>, row: Option<Row>, index: nat)
    requires Groups(turns, rows) && index < |turns| && turns[index].id == TurnOf(row)
    ensures Groups(turns[index := turns[index].(rows := turns[index].rows + [row])], rows + [row])
  {
    IdsAreDistinct(rows);
    assert TurnOf(row) in TurnIds(rows);
    forall i | 0 <= i < |turns|
      ensures RowsOf(turns[i].id, rows + [row]) == turns[i].rows + if i == index then [row] else []
    {
      GroupsSnoc(rows, row, turns[i].id);
    }
    GroupsSnoc(rows, row, TurnOf(row));
  }

  lemma RowOpensTurn(turns: seq<PersistedTurn>, rows: seq<Option<Row>>, row: Option<Row>)
    requires Groups(turns, rows) && TurnOf(row) !in TurnIds(rows)
    ensures Groups(turns + [PersistedTurn(TurnOf(row), [row])], rows + [row])
  {
    IdsAreThoseOfRows(rows, TurnOf(row));
    forall i | 0 <= i < |turns|
      ensures RowsOf(turns[i].id, rows + [row]) == turns[i].rows
    {
      assert turns[i].id in TurnIds(rows);
      GroupsSnoc(rows, row, turns[i].id);
    }
    GroupsSnoc(rows, row, TurnOf(row));
  }

  /** Appends one row to its turn, which is opened if this is its first row. */
  method AddRow(turns: seq<PersistedTurn>, turnIndexes: map<string, nat>, row: Option<Row>,
                ghost rows: seq<Option<Row>>)
    returns (later: seq<PersistedTurn>, laterIndexes: map<string, nat>)
    requires Groups(turns, rows) && Indexes(turnIndexes, TurnIds(rows))
    ensures Groups(later, rows + [row]) && Indexes(laterIndexes, TurnIds(rows + [row]))
  {
    later, laterIndexes := turns, turnIndexes;
    var turnId := TurnOf(row);
    GroupsSnoc(rows, row, turnId);
    if turnId !in turnIndexes {
      RowOpensTurn(turns, rows, row);
      laterIndexes := turnIndexes[turnId := |turns|];
      later := turns + [PersistedTurn(turnId, [])];
    } else {
      RowJoinsTurn(turns, rows, row, turnIndexes[turnId]);
    }
    var index := laterIndexes[turnId];
    later := later[index := later[index].(rows := later[index].rows + [row])];
  }

  method GroupHistoryRows(rows: seq<Option<Row>>) returns (turns: seq<PersistedTurn>)
    ensures Groups(turns, rows)
  {
    turns := [];
    var turnIndexes: map<string, nat> := map[];
    for n := 0 to |rows|
      invariant Groups(turns, rows[..n])
      invariant Indexes(turnIndexes, TurnIds(rows[..n]))
    {
      assert rows[..n + 1] == rows[..n] + [rows[n]];
      turns, turnIndexes := AddRow(turns, turnIndexes, rows[n], rows[..n]);
    }
    assert rows[..|rows|] == rows;
  }

  // ---- loading a history --------------------------------------------------

  /** What a turn's rows contribute: all of its messages if they make a valid history, else none. */
  ghost function TurnMessages(json: Json, rows: seq<Option<Row>>): (messages: seq<Message>)
    ensures ValidHistory(messages)
  {
    var replayed := Replay(json, rows);
    if replayed.Ok? && ValidHistory(replayed.value) then replayed.value else []
  }

  /** A turn with a corrupted row contributes nothing, whatever its other rows hold. */
  lemma CorruptedTurnIsSkipped(json: Json, rows: seq<Option<Row>>, i: nat)
    requires i < |rows| && Corrupted(json, rows[i])
    ensures TurnMessages(json, rows) == []
  {
    ReplayFailsExactlyOnCorruptedRow(json, rows);
  }

  ghost function LoadedTurns(json: Json, rows: seq<Option<Row>>): seq<seq<Message>> {
    seq(|TurnIds(rows)|, i requires 0 <= i < |TurnIds(rows)| => TurnMessages(json, RowsOf(TurnIds(rows)[i], rows)))
  }

  function Complete(table: seq<Row>): seq<Option<Row>> {
    if table == [] then []
    else (if table[0].complete then [Some(table[0])] else []) + Complete(table[1..])
  }

  method LoadHistory(json: Json, table: seq<Row>) returns (out: seq<Message>)
    ensures out == Flatten(LoadedTurns(json, Complete(table)))
  {
    var rows := Complete(table);
    out := [];
    var turns := GroupHistoryRows(rows);
    ghost var loaded := LoadedTurns(json, rows);
    for i := 0 to |turns|
      invariant |turns| == |loaded| && out == Flatten(loaded[..i])
    {
      assert loaded[i] == TurnMessages(json, turns[i].rows);
      FlattenNext(loaded, i);
      var messages := HistoryMessagesFromRows(json, turns[i].rows);
      if messages.Err? {
        continue;
      }
      var invalid := ValidateToolHistory(messages.value);
      if invalid.Some? {
        continue;
      }
      out := out + messages.value;
    }
    assert loaded[..|loaded|] == loaded;
  }

  lemma FlattenNext(turns: seq<seq<Message>>, i: nat)
    requires i < |turns|
    ensures Flatten(turns[..i + 1]) == Flatten(turns[..i]) + turns[i]
    ensures turns[i] == [] ==> Flatten(turns[..i + 1]) == Flatten(turns[..i])
  {
    assert turns[..i + 1] == turns[..i] + [turns[i]];
    FlattenSnoc(turns[..i], turns[i]);
    assert Flatten(turns[..i]) + [] == Flatten(turns[..i]);
  }

  lemma FlattenSnoc(turns: seq<seq<Message>>, turn: seq<Message>)
    ensures Flatten(turns + [turn]) == Flatten(turns) + turn
  {
    FlattenConcat(turns, [turn]);
    assert [turn][1..] == [] && turn + [] == turn;
  }

  /** Whatever is in the table, a loaded history passes the validator. */
  lemma LoadedHistoryIsValid(json: Json, rows: seq<Option<Row>>)
    ensures ValidHistory(Flatten(LoadedTurns(json, rows)))
  {
    FlattenIsValid(LoadedTurns(json, rows));
  }

  // ---- the round trip -----------------------------------------------------

  /** What is left of a message after storing and loading it. */
  function Normalised(m: Message): Message {
    m.(reasoning := "",
       providerReasoning := if m.role.Assistant? then m.providerReasoning else "",
       origin := if m.origin.Injection? then Injection else UnknownOrigin)
  }

  predicate Durable(m: Message) {
    m.role.User? || m.role.Assistant? || m.role.Tool? || (m.role.System? && m.origin.Injection?)
  }

  lemma RowRoundTrip(json: Json, turnId: string, m: Message)
    requires ToMessageRow(json, turnId, m).Ok? && Durable(m)
    ensures MessageFromRow(json, Some(ToMessageRow(json, turnId, m).value))
         == Ok(if ShouldSkipEmptyAssistant(Normalised(m)) then None else Some(Normalised(m)))
  {}

  /** The messages a turn stores. */
  function StoredOf(messages: seq<Message>): seq<Message> {
    if messages == [] then []
    else (if BelongsInStoredHistory(messages, 0) then [messages[0]] else []) + StoredOf(messages[1..])
  }

  /** The message cannot be stored: an assistant's provider reasoning or a call's arguments are no JSON. */
  ghost predicate Unstorable(json: Json, m: Message) {
    || (m.role.Assistant? && m.providerReasoning != "" && !json(m.providerReasoning))
    || exists i :: 0 <= i < |m.toolCalls| && !json(m.toolCalls[i].arguments)
  }

  /** The row says of the message what it says itself, apart from the reasoning of others than the assistant. */
  predicate RowOf(row: Row, turnId: string, m: Message) {
    && row.turnId == turnId && row.complete && row.role == m.role && row.content == m.text
    && row.reasoning == m.reasoning && row.toolCallId == m.toolCallId && row.isError == m.isError
    && (row.isInjection <==> m.origin.Injection?)
    && (if m.role.Assistant? then row.providerReasoning == m.providerReasoning else row.providerReasoning == "")
    && (if m.toolCalls == [] then row.calls.NoCalls? else row.calls.Calls? && row.calls.calls == m.toolCalls)
  }

  lemma MessageStored(json: Json, turnId: string, m: Message)
    ensures var row := ToMessageRow(json, turnId, m);
            if Unstorable(json, m)
            then
              row == Err(if m.role.Assistant? && m.providerReasoning != "" && !json(m.providerReasoning)
                         then BadReasoning else BadCalls)
            else row.Ok? && RowOf(row.value, turnId, m)
  {}

  ghost predicate AllStorable(json: Json, messages: seq<Message>) {
    forall i | 0 <= i < |messages| :: !Unstorable(json, messages[i])
  }

  ghost predicate RowsOfAll(rows: seq<Row>, turnId: string, messages: seq<Message>) {
    |rows| == |messages| && forall i | 0 <= i < |rows| :: RowOf(rows[i], turnId, messages[i])
  }

  lemma AllStorableCons(json: Json, m: Message, rest: seq<Message>)
    ensures AllStorable(json, [m] + rest) <==> !Unstorable(json, m) && AllStorable(json, rest)
  {
    var all := [m] + rest;
    assert all[0] == m && forall i | 0 <= i < |rest| :: rest[i] == all[i + 1];
  }

  /** A run is stored exactly when each message that belongs in the history can be, as one row for each. */
  lemma {:induction false} RowsAreTheMessages(json: Json, turnId: string, messages: seq<Message>)
    ensures var rows := RowsFor(json, turnId, messages);
            && (rows.Ok? <==> AllStorable(json, StoredOf(messages)))
            && (rows.Ok? ==> RowsOfAll(rows.value, turnId, StoredOf(messages)))
    decreases |messages|
  {
    if messages != [] {
      RowsAreTheMessages(json, turnId, messages[1..]);
      if BelongsInStoredHistory(messages, 0) {
        FirstRowStored(json, turnId, messages[0], RowsFor(json, turnId, messages[1..]), StoredOf(messages[1..]));
      } else {
        assert StoredOf(messages) == StoredOf(messages[1..]);
      }
    }
  }

  lemma FirstRowStored(json: Json, turnId: string, m: Message, rows: Result<seq<Row>, StoreError>, kept: seq<Message>)
    requires rows.Ok? <==> AllStorable(json, kept)
    requires rows.Ok? ==> RowsOfAll(rows.value, turnId, kept)
    ensures var row := ToMessageRow(json, turnId, m);
            && (row.Ok? && rows.Ok? <==> AllStorable(json, [m] + kept))
            && (row.Ok? && rows.Ok? ==> RowsOfAll([row.value] + rows.value, turnId, [m] + kept))
  {
    MessageStored(json, turnId, m);
    AllStorableCons(json, m, kept);
  }

  /** The messages of a turn's own run. */
  function OfTurn(messages: seq<Message>): seq<Message> {
    if messages == [] then []
    else (if messages[0].origin.Turn? then [messages[0]] else []) + OfTurn(messages[1..])
  }

  predicate EndsOnInjection(messages: seq<Message>) {
    messages != [] && messages[|messages| - 1].origin.Injection?
  }

  lemma {:induction false} StoredIsTurnAndLastInjection(messages: seq<Message>)
    ensures StoredOf(messages) == OfTurn(messages)
         + if EndsOnInjection(messages) then [messages[|messages| - 1]] else []
  {
    if |messages| > 1 {
      StoredIsTurnAndLastInjection(messages[1..]);
    } else if |messages| == 1 {
      assert messages[1..] == [];
    }
  }

  function Replayed(messages: seq<Message>): seq<Message> {
    if messages == [] then []
    else
      (if ShouldSkipEmptyAssistant(Normalised(messages[0])) then [] else [Normalised(messages[0])])
      + Replayed(messages[1..])
  }

  function Stored(rows: seq<Row>): (stored: seq<Option<Row>>)
    ensures |stored| == |rows| && forall i | 0 <= i < |rows| :: stored[i] == Some(rows[i])
  {
    seq(|rows|, i requires 0 <= i < |rows| => Some(rows[i]))
  }

  lemma StoredCons(row: Row, rows: seq<Row>)
    ensures Stored([row] + rows) == [Some(row)] + Stored(rows)
  {}

  lemma ReplayCons(json: Json, row: Row, m: Message, rows: seq<Option<Row>>)
    requires MessageFromRow(json, Some(row))
          == Ok(if ShouldSkipEmptyAssistant(Normalised(m)) then None else Some(Normalised(m)))
    ensures Replay(json, [Some(row)] + rows) == Prepend(Replayed([m]), Replay(json, rows))
  {
    var all := [Some(row)] + rows;
    assert all[0] == Some(row) && all[1..] == rows;
    assert [m][1..] == [];
    assert Replayed([m]) == if ShouldSkipEmptyAssistant(Normalised(m)) then [] else [Normalised(m)];
  }

  lemma ReplayedCons(m: Message, messages: seq<Message>)
    ensures Replayed([m] + messages) == Replayed([m]) + Replayed(messages)
  {
    assert ([m] + messages)[1..] == messages;
    assert [m][1..] == [];
  }

  /** Rows written for messages read back as those messages, normalised. */
  lemma {:induction false} RowsRoundTrip(json: Json, turnId: string, messages: seq<Message>)
    requires RowsFor(json, turnId, messages).Ok?
    requires forall m | m in StoredOf(messages) :: Durable(m)
    ensures Replay(json, Stored(RowsFor(json, turnId, messages).value)) == Ok(Replayed(StoredOf(messages)))
  {
    if messages == [] {
    } else if !BelongsInStoredHistory(messages, 0) {
      assert StoredOf(messages) == StoredOf(messages[1..]);
      RowsRoundTrip(json, turnId, messages[1..]);
    } else {
      var first, rest := messages[0], messages[1..];
      assert StoredOf(messages) == [first] + StoredOf(rest);
      assert first in StoredOf(messages) && forall m | m in StoredOf(rest) :: m in StoredOf(messages);
      RowsRoundTrip(json, turnId, rest);
      RowRoundTrip(json, turnId, first);
      var row, rows := ToMessageRow(json, turnId, first).value, RowsFor(json, turnId, rest).value;
      StoredCons(row, rows);
      ReplayCons(json, row, first, Stored(rows));
      ReplayedCons(first, StoredOf(rest));
    }
  }

  // ---- whole turns --------------------------------------------------------

  function PendingUserRow(turnId: string, content: string): Row {
    Row(turnId, true, User, content, "", "", NoCalls, "", false, false)
  }

  function UserMessage(content: string): Message {
    Message(User, content, [], "", false, "", "", UnknownOrigin)
  }

  /** The rows of a completed turn: the user's message, then what the run produced. */
  function RowsOfTurn(json: Json, turnId: string, content: string, messages: seq<Message>): seq<Option<Row>>
    requires RowsFor(json, turnId, messages).Ok?
  {
    [Some(PendingUserRow(turnId, content))] + Stored(RowsFor(json, turnId, messages).value)
  }

  lemma {:induction false} ReplayedKeepsValid(pending: set<string>, messages: seq<Message>)
    requires ValidFrom(pending, messages)
    ensures ValidFrom(pending, Replayed(messages))
    decreases |messages|
  {
    if messages != [] {
      var m := messages[0];
      ReplayedKeepsValid(Next(pending, m), messages[1..]);
      if ShouldSkipEmptyAssistant(Normalised(m)) {
        assert CallIds(m.toolCalls) == [];
        assert Next(pending, m) == pending;
        assert Replayed(messages) == Replayed(messages[1..]);
      } else {
        assert Replayed(messages)[1..] == Replayed(messages[1..]);
        assert Accepts(pending, Normalised(m)) && Next(pending, Normalised(m)) == Next(pending, m);
      }
    }
  }

  lemma {:induction false} ValidRoles(pending: set<string>, messages: seq<Message>)
    requires ValidFrom(pending, messages)
    ensures forall m | m in messages :: m.role.User? || m.role.Assistant? || m.role.Tool?
    decreases |messages|
  {
    if messages != [] {
      ValidRoles(Next(pending, messages[0]), messages[1..]);
    }
  }

  lemma {:induction false} ReplayedConcat(a: seq<Message>, b: seq<Message>)
    ensures Replayed(a + b) == Replayed(a) + Replayed(b)
    decreases |a|
  {
    if a == [] {
      assert a + b == b;
    } else {
      HeadSplit(a, b);
      ReplayedCons(a[0], a[1..] + b);
      ReplayedCons(a[0], a[1..]);
      ReplayedConcat(a[1..], b);
      ConcatAssociative(Replayed([a[0]]), Replayed(a[1..]), Replayed(b));
    }
  }

  lemma HeadSplit(a: seq<Message>, b: seq<Message>)
    requires a != []
    ensures a + b == [a[0]] + (a[1..] + b) && a == [a[0]] + a[1..]
  {}

  /** The run's own messages are valid after the user's message. */
  ghost predicate GoodTurn(content: string, messages: seq<Message>) {
    InjectionsAreSystem(messages) && ValidHistory([UserMessage(content)] + OfTurn(messages))
  }

  lemma GoodTurnContinues(content: string, messages: seq<Message>)
    requires GoodTurn(content, messages)
    ensures ValidHistory(OfTurn(messages))
  {
    assert ([UserMessage(content)] + OfTurn(messages))[1..] == OfTurn(messages);
  }

  /** Everything a turn stores is read back, in order, apart from reasoning text, origins and empty
      assistant messages. */
  lemma TurnReplays(json: Json, turnId: string, content: string, messages: seq<Message>)
    requires RowsFor(json, turnId, messages).Ok? && GoodTurn(content, messages)
    ensures Replay(json, RowsOfTurn(json, turnId, content, messages))
         == Ok([UserMessage(content)] + Replayed(StoredOf(messages)))
  {
    GoodTurnContinues(content, messages);
    ValidRoles({}, OfTurn(messages));
    StoredIsTurnAndLastInjection(messages);
    RowsRoundTrip(json, turnId, messages);
    var user := UserMessage(content);
    assert [user][1..] == [];
    assert Replayed([user]) == [user];
    ReplayCons(json, PendingUserRow(turnId, content), user, Stored(RowsFor(json, turnId, messages).value));
  }

  /** A turn is loaded whole exactly when its run did not end on an injection, which the validator
      rejects; otherwise none of it is loaded. */
  lemma TurnSurvivesExactlyWithoutFinalInjection(json: Json, turnId: string, content: string, messages: seq<Message>)
    requires RowsFor(json, turnId, messages).Ok? && GoodTurn(content, messages)
    ensures TurnMessages(json, RowsOfTurn(json, turnId, content, messages))
         == if EndsOnInjection(messages) then [] else [UserMessage(content)] + Replayed(OfTurn(messages))
  {
    TurnReplays(json, turnId, content, messages);
    GoodTurnContinues(content, messages);
    StoredIsTurnAndLastInjection(messages);
    ReplayedKeepsValid({}, OfTurn(messages));
    var kept := [UserMessage(content)] + Replayed(OfTurn(messages));
    assert kept[1..] == Replayed(OfTurn(messages));
    assert ValidHistory(kept);
    if EndsOnInjection(messages) {
      var last := messages[|messages| - 1];
      ReplayedConcat(OfTurn(messages), [last]);
      assert [last][1..] == [];
      assert Replayed([last]) == [Normalised(last)];
      ConcatLast(UserMessage(content), Replayed(OfTurn(messages)), Normalised(last));
      ValidConcat({}, kept, [Normalised(last)]);
      assert !Accepts({}, Normalised(last));
    } else {
      assert OfTurn(messages) + [] == OfTurn(messages);
    }
  }

  const ANSWER := UserMessage("").(role := Assistant, text := "hello", origin := Turn)
  const INJECTION := UserMessage("").(role := System, text := "look", origin := Injection)

  lemma AnswerIsGoodTurn()
    ensures OfTurn([ANSWER]) == [ANSWER] == OfTurn([ANSWER, INJECTION])
    ensures ValidHistory([UserMessage("hi")] + [ANSWER])
  {
    assert [ANSWER][1..] == [] && [ANSWER, INJECTION][1..] == [INJECTION] && [INJECTION][1..] == [];
    assert ([UserMessage("hi")] + [ANSWER])[1..] == [ANSWER];
  }

  lemma AnswerIsStored(json: Json)
    ensures RowsFor(json, "t", [ANSWER]).Ok? && RowsFor(json, "t", [ANSWER, INJECTION]).Ok?
  {
    assert [ANSWER][1..] == [] && [ANSWER, INJECTION][1..] == [INJECTION] && [INJECTION][1..] == [];
  }

  /** Such a turn: a plain answer is loaded, the same answer before a tool's injection is not. */
  lemma FinalInjectionExample(json: Json)
    ensures RowsFor(json, "t", [ANSWER]).Ok? && RowsFor(json, "t", [ANSWER, INJECTION]).Ok?
    ensures TurnMessages(json, RowsOfTurn(json, "t", "hi", [ANSWER])) == [UserMessage("hi"), Normalised(ANSWER)]
    ensures TurnMessages(json, RowsOfTurn(json, "t", "hi", [ANSWER, INJECTION])) == []
  {
    AnswerIsGoodTurn();
    AnswerIsStored(json);
    assert Replayed([ANSWER]) == [Normalised(ANSWER)] + Replayed([ANSWER][1..]);
    TurnSurvivesExactlyWithoutFinalInjection(json, "t", "hi", [ANSWER]);
    TurnSurvivesExactlyWithoutFinalInjection(json, "t", "hi", [ANSWER, INJECTION]);
  }

  lemma ConcatLast(first: Message, middle: seq<Message>, last: Message)
    ensures [first] + (middle + [last]) == [first] + middle + [last]
  {}

  // ---- turns among other turns --------------------------------------------

  lemma {:induction false} NewTurnGroups(id: string, rows: seq<Option<Row>>, added: seq<Option<Row>>, other: string)
    requires id !in TurnIds(rows) && added != [] && forall row | row in added :: TurnOf(row) == id
    ensures TurnIds(rows + added) == TurnIds(rows) + [id]
    ensures RowsOf(id, rows + added) == added
    ensures other != id ==> RowsOf(other, rows + added) == RowsOf(other, rows)
    decreases |added|
  {
    var n := |added| - 1;
    LastSplit(rows, added);
    GroupsSnoc(rows + added[..n], added[n], id);
    GroupsSnoc(rows + added[..n], added[n], other);
    if n == 0 {
      assert rows + added[..n] == rows && added == [added[n]];
      IdsAreThoseOfRows(rows, id);
    } else {
      NewTurnGroups(id, rows, added[..n], other);
    }
  }

  lemma LastSplit(rows: seq<Option<Row>>, added: seq<Option<Row>>)
    requires added != []
    ensures rows + added == rows + added[..|added| - 1] + [added[|added| - 1]]
    ensures added == added[..|added| - 1] + [added[|added| - 1]]
  {}

  /** A turn stored after the others is loaded after the others, and changes none of them. */
  lemma NewTurnIsAppended(json: Json, id: string, rows: seq<Option<Row>>, added: seq<Option<Row>>)
    requires id !in TurnIds(rows) && added != [] && forall row | row in added :: TurnOf(row) == id
    ensures Flatten(LoadedTurns(json, rows + added)) == Flatten(LoadedTurns(json, rows)) + TurnMessages(json, added)
  {
    NewTurnLoads(json, id, rows, added);
    FlattenSnoc(LoadedTurns(json, rows), TurnMessages(json, added));
  }

  lemma LoadedAt(json: Json, rows: seq<Option<Row>>, i: nat)
    requires i < |TurnIds(rows)|
    ensures |LoadedTurns(json, rows)| == |TurnIds(rows)|
    ensures LoadedTurns(json, rows)[i] == TurnMessages(json, RowsOf(TurnIds(rows)[i], rows))
  {}

  lemma OldTurnLoads(json: Json, id: string, rows: seq<Option<Row>>, added: seq<Option<Row>>, i: nat)
    requires id !in TurnIds(rows) && added != [] && forall row | row in added :: TurnOf(row) == id
    requires i < |TurnIds(rows)|
    ensures i < |LoadedTurns(json, rows + added)| && LoadedTurns(json, rows + added)[i] == LoadedTurns(json, rows)[i]
  {
    NewTurnGroups(id, rows, added, TurnIds(rows)[i]);
    LoadedAt(json, rows, i);
    LoadedAt(json, rows + added, i);
  }

  lemma NewTurnLoads(json: Json, id: string, rows: seq<Option<Row>>, added: seq<Option<Row>>)
    requires id !in TurnIds(rows) && added != [] && forall row | row in added :: TurnOf(row) == id
    ensures LoadedTurns(json, rows + added) == LoadedTurns(json, rows) + [TurnMessages(json, added)]
  {
    NewTurnGroups(id, rows, added, id);
    forall i: nat | i < |TurnIds(rows)|
      ensures i < |LoadedTurns(json, rows + added)| && LoadedTurns(json, rows + added)[i] == LoadedTurns(json, rows)[i]
    {
      OldTurnLoads(json, id, rows, added, i);
    }
    LoadedAt(json, rows + added, |TurnIds(rows)|);
  }

  /** Wherever the rows of a turn stand among the rows of other turns, the history holds its messages
      together, at the place of the turn's first row. */
  lemma TurnIsLoadedTogether(json: Json, id: string, rows: seq<Option<Row>>) returns (i: nat)
    requires id in TurnIds(rows)
    ensures i < |TurnIds(rows)| && TurnIds(rows)[i] == id
    ensures Flatten(LoadedTurns(json, rows))
         == Flatten(LoadedTurns(json, rows)[..i]) + TurnMessages(json, RowsOf(id, rows))
          + Flatten(LoadedTurns(json, rows)[i + 1..])
  {
    i :| i < |TurnIds(rows)| && TurnIds(rows)[i] == id;
    var loaded := LoadedTurns(json, rows);
    assert loaded == loaded[..i] + [loaded[i]] + loaded[i + 1..];
    FlattenConcat(loaded[..i] + [loaded[i]], loaded[i + 1..]);
    FlattenSnoc(loaded[..i], loaded[i]);
  }

  lemma {:induction false} RowsForTurn(json: Json, turnId: string, messages: seq<Message>)
    requires RowsFor(json, turnId, messages).Ok?
    ensures forall row | row in RowsFor(json, turnId, messages).value :: row.turnId == turnId
  {
    if messages != [] {
      RowsForTurn(json, turnId, messages[1..]);
    }
  }

  /** After a turn completes, the next load gives the earlier history followed by the turn, unless
      the turn ended on an injection. */
  lemma NextLoadHasTheTurn(json: Json, turnId: string, content: string, messages: seq<Message>, rows: seq<Option<Row>>)
    requires RowsFor(json, turnId, messages).Ok? && GoodTurn(content, messages)
    requires turnId !in TurnIds(rows)
    ensures Flatten(LoadedTurns(json, rows + RowsOfTurn(json, turnId, content, messages)))
         == Flatten(LoadedTurns(json, rows))
          + if EndsOnInjection(messages) then [] else [UserMessage(content)] + Replayed(OfTurn(messages))
  {
    RowsForTurn(json, turnId, messages);
    NewTurnIsAppended(json, turnId, rows, RowsOfTurn(json, turnId, content, messages));
    TurnSurvivesExactlyWithoutFinalInjection(json, turnId, content, messages);
  }
}
