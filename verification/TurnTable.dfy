/** The rows of a turn in the messages table, from the pending user message through checkpoints of
    the streamed answer to completion. Every transaction and every single read or write is one step;
    writes may fail, or be committed and still be reported as failed, and a turn may stop anywhere. */
module TurnTable {
  import opened Collections
  import opened Wrappers
  import opened ChatMessages
  import opened StoredHistory

  /** A row with its primary key; rows are in the order of their positions. */
  datatype Entry = Entry(id: nat, row: Row)

  datatype Table = Table(entries: seq<Entry>, nextId: nat)

  // ---- queries ------------------------------------------------------------

  function Filter(keep: Entry -> bool, entries: seq<Entry>): seq<Entry> {
    if entries == [] then []
    else (if keep(entries[0]) then [entries[0]] else []) + Filter(keep, entries[1..])
  }

  function Map(f: Entry -> Entry, entries: seq<Entry>): (mapped: seq<Entry>)
    ensures |mapped| == |entries| && forall i | 0 <= i < |entries| :: mapped[i] == f(entries[i])
  {
    seq(|entries|, i requires 0 <= i < |entries| => f(entries[i]))
  }

  function InTurn(t: string): Entry -> bool {
    (e: Entry) => e.row.turnId == t
  }

  predicate IsCheckpoint(row: Row, t: string) {
    row.turnId == t && row.role.Assistant? && !row.complete
  }

  predicate IsPendingUser(row: Row, t: string) {
    row.turnId == t && row.role.User? && !row.complete
  }

  function NoCheckpoint(t: string): Entry -> bool {
    (e: Entry) => !IsCheckpoint(e.row, t)
  }

  function Checkpoints(t: string): Entry -> bool {
    (e: Entry) => IsCheckpoint(e.row, t)
  }

  function PendingUsers(t: string): Entry -> bool {
    (e: Entry) => IsPendingUser(e.row, t)
  }

  function Completing(t: string): Entry -> Entry {
    (e: Entry) => if IsPendingUser(e.row, t) then e.(row := e.row.(complete := true)) else e
  }

  function Saving(id: nat, content: string, reasoning: string): Entry -> Entry {
    (e: Entry) => if e.id == id then e.(row := e.row.(content := content, reasoning := reasoning)) else e
  }

  function Numbered(rows: seq<Row>, id: nat): (entries: seq<Entry>)
    ensures |entries| == |rows| && forall i | 0 <= i < |rows| :: entries[i] == Entry(id + i, rows[i])
  {
    seq(|rows|, i requires 0 <= i < |rows| => Entry(id + i, rows[i]))
  }

  function Inserted(table: Table, rows: seq<Row>): Table {
    Table(table.entries + Numbered(rows, table.nextId), table.nextId + |rows|)
  }

  // ---- operations on the table --------------------------------------------

  function UserRow(t: string, content: string): Row {
    PendingUserRow(t, content).(complete := false)
  }

  function CheckpointRow(t: string, content: string, reasoning: string): Row {
    Row(t, false, Assistant, content, reasoning, "", NoCalls, "", false, false)
  }

  /** The first half of `upsert`. */
  function FindCheckpoint(table: Table, t: string): Option<nat> {
    var found := Filter(Checkpoints(t), table.entries);
    if found == [] then None else Some(found[0].id)
  }

  /** The second half: the row found is saved, or a new one is created. */
  function WriteCheckpoint(table: Table, t: string, found: Option<nat>, content: string, reasoning: string): Table {
    match found
    case Some(id) => table.(entries := Map(Saving(id, content, reasoning), table.entries))
    case None => Inserted(table, [CheckpointRow(t, content, reasoning)])
  }

  /** The completing transaction: drop the checkpoint, add the rows, complete the one pending user
      row; refused as a whole unless there is exactly one. */
  function Completed(table: Table, t: string, rows: seq<Row>): Option<Table> {
    var next := Inserted(table.(entries := Filter(NoCheckpoint(t), table.entries)), rows);
    if |Filter(PendingUsers(t), next.entries)| != 1 then None
    else Some(next.(entries := Map(Completing(t), next.entries)))
  }

  // ---- the checkpoint in memory -------------------------------------------

  datatype Delta = Delta(text: string, reasoning: string)

  datatype Checkpoint = Checkpoint(content: string, reasoning: string, dirty: bool)

  const NO_CHECKPOINT := Checkpoint("", "", false)

  function Appended(c: Checkpoint, delta: Delta): Checkpoint {
    if delta.text == "" && delta.reasoning == "" then c
    else Checkpoint(c.content + delta.text, c.reasoning + delta.reasoning, true)
  }

  // ---- turns and steps ----------------------------------------------------

  datatype Pc = Streaming | Writing(found: Option<nat>) | Over

  /** `streamed` remembers the deltas received, `final` the rows a committed completion added. */
  datatype LiveTurn = LiveTurn(
    pc: Pc, user: string, streamed: seq<Delta>, checkpoint: Checkpoint, final: Option<seq<Row>>)

  function Texts(deltas: seq<Delta>): string {
    if deltas == [] then "" else Texts(deltas[..|deltas| - 1]) + deltas[|deltas| - 1].text
  }

  function Reasonings(deltas: seq<Delta>): string {
    if deltas == [] then "" else Reasonings(deltas[..|deltas| - 1]) + deltas[|deltas| - 1].reasoning
  }

  lemma StreamedSnoc(deltas: seq<Delta>, delta: Delta)
    ensures Texts(deltas + [delta]) == Texts(deltas) + delta.text
    ensures Reasonings(deltas + [delta]) == Reasonings(deltas) + delta.reasoning
  {
    assert (deltas + [delta])[..|deltas|] == deltas;
  }

  datatype World = World(table: Table, turns: map<string, LiveTurn>)

  /** `commits` says whether a write takes effect, `reported` whether the caller is told so. */
  datatype Event =
    | SavePending(t: string, content: string, commits: bool, reported: bool)
    | Receive(t: string, delta: Delta)
    | Find(t: string, ok: bool)
    | Write(t: string, commits: bool, reported: bool)
    | Complete(t: string, rows: seq<Row>, commits: bool)
    | Stop(t: string)

  const START := World(Table([], 0), map[])

  /** What `persistTurn` hands over: rows of this turn, marked complete. */
  ghost predicate Persistable(t: string, rows: seq<Row>) {
    forall i | 0 <= i < |rows| :: rows[i].turnId == t && rows[i].complete
  }

  ghost predicate Enabled(w: World, e: Event) {
    match e
    case SavePending(t, _, commits, reported) => t !in w.turns && (reported ==> commits)
    case Receive(t, _) => t in w.turns && w.turns[t].pc.Streaming?
    case Find(t, _) => t in w.turns && w.turns[t].pc.Streaming? && w.turns[t].checkpoint.dirty
    case Write(t, commits, reported) => t in w.turns && w.turns[t].pc.Writing? && (reported ==> commits)
    case Complete(t, rows, _) => t in w.turns && w.turns[t].pc.Streaming? && Persistable(t, rows)
    case Stop(t) => t in w.turns
  }

  ghost function TableAfter(w: World, e: Event): Table
    requires Enabled(w, e)
  {
    match e
    case SavePending(t, content, commits, _) => if commits then Inserted(w.table, [UserRow(t, content)]) else w.table
    case Write(t, commits, _) =>
      var turn := w.turns[t];
      if commits then WriteCheckpoint(w.table, t, turn.pc.found, turn.checkpoint.content, turn.checkpoint.reasoning)
      else w.table
    case Complete(t, rows, commits) =>
      var completed := Completed(w.table, t, rows);
      if commits && completed.Some? then completed.value else w.table
    case _ => w.table
  }

  ghost function TurnAfter(w: World, e: Event): LiveTurn
    requires Enabled(w, e)
  {
    match e
    case SavePending(_, content, _, reported) =>
      LiveTurn(if reported then Streaming else Over, content, [], NO_CHECKPOINT, None)
    case Receive(t, delta) =>
      w.turns[t].(streamed := w.turns[t].streamed + [delta], checkpoint := Appended(w.turns[t].checkpoint, delta))
    case Find(t, ok) => w.turns[t].(pc := if ok then Writing(FindCheckpoint(w.table, t)) else Streaming)
    case Write(t, _, reported) =>
      w.turns[t].(pc := Streaming, checkpoint := w.turns[t].checkpoint.(dirty := !reported))
    case Complete(t, rows, commits) =>
      w.turns[t].(pc := Over, final := if commits && Completed(w.table, t, rows).Some? then Some(rows) else None)
    case Stop(t) => w.turns[t].(pc := Over)
  }

  ghost function Step(w: World, e: Event): World
    requires Enabled(w, e)
  {
    World(TableAfter(w, e), w.turns[e.t := TurnAfter(w, e)])
  }

  ghost predicate Leads(from: World, events: seq<Event>, to: World)
    decreases events
  {
    if events == [] then from == to
    else Enabled(from, events[0]) && Leads(Step(from, events[0]), events[1..], to)
  }

  ghost predicate Reachable(w: World) {
    exists events :: Leads(START, events, w)
  }

  // ---- filters and maps ---------------------------------------------------

  lemma {:induction false} FilterConcat(keep: Entry -> bool, a: seq<Entry>, b: seq<Entry>)
    ensures Filter(keep, a + b) == Filter(keep, a) + Filter(keep, b)
    decreases |a|
  {
    if a == [] {
      assert a + b == b;
    } else {
      assert (a + b)[0] == a[0] && (a + b)[1..] == a[1..] + b;
      FilterConcat(keep, a[1..], b);
      ConcatAssociative(if keep(a[0]) then [a[0]] else [], Filter(keep, a[1..]), Filter(keep, b));
    }
  }

  lemma {:induction false} FilterSwap(p: Entry -> bool, q: Entry -> bool, entries: seq<Entry>)
    ensures Filter(p, Filter(q, entries)) == Filter(q, Filter(p, entries))
  {
    if entries != [] {
      FilterSwap(p, q, entries[1..]);
      var head := [entries[0]];
      FilterConcat(p, if q(entries[0]) then head else [], Filter(q, entries[1..]));
      FilterConcat(q, if p(entries[0]) then head else [], Filter(p, entries[1..]));
    }
  }

  lemma {:induction false} FilterAll(keep: Entry -> bool, entries: seq<Entry>)
    requires forall i | 0 <= i < |entries| :: keep(entries[i])
    ensures Filter(keep, entries) == entries
  {
    if entries != [] {
      FilterAll(keep, entries[1..]);
    }
  }

  lemma {:induction false} FilterNone(keep: Entry -> bool, entries: seq<Entry>)
    requires forall i | 0 <= i < |entries| :: !keep(entries[i])
    ensures Filter(keep, entries) == []
  {
    if entries != [] {
      FilterNone(keep, entries[1..]);
    }
  }

  lemma {:induction false} FilterMembers(keep: Entry -> bool, entries: seq<Entry>, e: Entry)
    ensures e in Filter(keep, entries) <==> e in entries && keep(e)
  {
    if entries != [] {
      FilterMembers(keep, entries[1..], e);
    }
  }

  /** A subset of the entries asked for is found among them. */
  lemma {:induction false} FilterWithin(p: Entry -> bool, q: Entry -> bool, entries: seq<Entry>)
    requires forall e: Entry | p(e) :: q(e)
    ensures Filter(p, Filter(q, entries)) == Filter(p, entries)
  {
    if entries != [] {
      FilterWithin(p, q, entries[1..]);
      FilterConcat(p, if q(entries[0]) then [entries[0]] else [], Filter(q, entries[1..]));
    }
  }

  lemma {:induction false} FilterMap(keep: Entry -> bool, f: Entry -> Entry, entries: seq<Entry>)
    requires forall e: Entry :: keep(f(e)) == keep(e)
    ensures Filter(keep, Map(f, entries)) == Map(f, Filter(keep, entries))
  {
    if entries != [] {
      FilterMap(keep, f, entries[1..]);
      assert Map(f, entries)[1..] == Map(f, entries[1..]);
    }
  }

  // ---- what every step keeps ----------------------------------------------

  function Mine(table: Table, t: string): seq<Entry> {
    Filter(InTurn(t), table.entries)
  }

  ghost predicate DistinctIds(entries: seq<Entry>) {
    forall i, j | 0 <= i < j < |entries| :: entries[i].id != entries[j].id
  }

  ghost predicate KeysOk(table: Table) {
    && (forall i | 0 <= i < |table.entries| :: table.entries[i].id < table.nextId)
    && DistinctIds(table.entries)
  }

  ghost predicate CheckpointOk(mine: seq<Entry>, t: string, c: Checkpoint) {
    && (|mine| == 2 ==>
          && mine[1].row == CheckpointRow(t, mine[1].row.content, mine[1].row.reasoning)
          && mine[1].row.content <= c.content && mine[1].row.reasoning <= c.reasoning)
    && (!c.dirty ==>
          if |mine| == 2 then mine[1].row == CheckpointRow(t, c.content, c.reasoning) else c == NO_CHECKPOINT)
  }

  /** One pending user row and at most one checkpoint, which is a prefix of what was streamed. */
  ghost predicate Incomplete(mine: seq<Entry>, t: string, turn: LiveTurn) {
    && 1 <= |mine| <= 2
    && mine[0].row == UserRow(t, turn.user)
    && CheckpointOk(mine, t, turn.checkpoint)
    && (turn.pc.Writing? ==> turn.pc.found == if |mine| == 2 then Some(mine[1].id) else None)
  }

  function RowsIn(entries: seq<Entry>): (rows: seq<Row>)
    ensures |rows| == |entries| && forall i | 0 <= i < |entries| :: rows[i] == entries[i].row
  {
    seq(|entries|, i requires 0 <= i < |entries| => entries[i].row)
  }

  ghost predicate TurnOk(mine: seq<Entry>, t: string, turn: LiveTurn) {
    match turn.final
    case Some(rows) => turn.pc.Over? && Persistable(t, rows) && RowsIn(mine) == [PendingUserRow(t, turn.user)] + rows
    case None => (mine == [] && turn.pc.Over? && turn.checkpoint == NO_CHECKPOINT) || Incomplete(mine, t, turn)
  }

  /** What is accumulated is what was streamed, text as text and reasoning as reasoning. */
  ghost predicate Remembers(turn: LiveTurn) {
    turn.checkpoint.content == Texts(turn.streamed) && turn.checkpoint.reasoning == Reasonings(turn.streamed)
  }

  ghost predicate Inv(w: World) {
    && KeysOk(w.table)
    && (forall t | t in w.turns :: t in w.turns && TurnOk(Mine(w.table, t), t, w.turns[t]))
    && (forall t | t in w.turns :: t in w.turns && Remembers(w.turns[t]))
    && (forall t {:trigger Mine(w.table, t)} :: t !in w.turns ==> Mine(w.table, t) == [])
  }

  // ---- how operations change the rows of a turn ---------------------------

  lemma MineInserted(table: Table, rows: seq<Row>, t: string, other: string)
    requires forall i | 0 <= i < |rows| :: rows[i].turnId == t
    ensures Mine(Inserted(table, rows), t) == Mine(table, t) + Numbered(rows, table.nextId)
    ensures other != t ==> Mine(Inserted(table, rows), other) == Mine(table, other)
  {
    var added := Numbered(rows, table.nextId);
    FilterConcat(InTurn(t), table.entries, added);
    FilterAll(InTurn(t), added);
    FilterConcat(InTurn(other), table.entries, added);
    if other != t {
      FilterNone(InTurn(other), added);
      assert Mine(table, other) + [] == Mine(table, other);
    }
  }

  lemma KeysInserted(table: Table, rows: seq<Row>)
    requires KeysOk(table)
    ensures KeysOk(Inserted(table, rows))
  {}

  lemma MineSaved(table: Table, id: nat, content: string, reasoning: string, t: string)
    ensures Mine(table.(entries := Map(Saving(id, content, reasoning), table.entries)), t)
         == Map(Saving(id, content, reasoning), Mine(table, t))
  {
    FilterMap(InTurn(t), Saving(id, content, reasoning), table.entries);
  }

  /** A key belongs to one turn only. */
  lemma KeyOfOneTurn(table: Table, t: string, other: string, i: nat, j: nat)
    requires KeysOk(table) && t != other && i < |Mine(table, t)| && j < |Mine(table, other)|
    ensures Mine(table, t)[i].id != Mine(table, other)[j].id
  {
    var a, b := Mine(table, t)[i], Mine(table, other)[j];
    FilterMembers(InTurn(t), table.entries, a);
    FilterMembers(InTurn(other), table.entries, b);
  }

  lemma {:induction false} KeysDistinctIn(keep: Entry -> bool, entries: seq<Entry>)
    requires DistinctIds(entries)
    ensures DistinctIds(Filter(keep, entries))
  {
    if entries != [] {
      KeysDistinctIn(keep, entries[1..]);
      var rest := Filter(keep, entries[1..]);
      forall j | 0 <= j < |rest|
        ensures rest[j].id != entries[0].id
      {
        FilterMembers(keep, entries[1..], rest[j]);
      }
    }
  }

  lemma KeysFiltered(table: Table, keep: Entry -> bool)
    requires KeysOk(table)
    ensures KeysOk(table.(entries := Filter(keep, table.entries)))
  {
    KeysDistinctIn(keep, table.entries);
    var kept := Filter(keep, table.entries);
    forall i | 0 <= i < |kept|
      ensures kept[i].id < table.nextId
    {
      FilterMembers(keep, table.entries, kept[i]);
    }
  }

  function WithoutCheckpoint(table: Table, t: string): Table {
    table.(entries := Filter(NoCheckpoint(t), table.entries))
  }

  ghost predicate Completable(mine: seq<Entry>, t: string, user: string) {
    && 1 <= |mine| <= 2 && mine[0].row == UserRow(t, user)
    && (|mine| == 2 ==> IsCheckpoint(mine[1].row, t))
  }

  /** Just before the user row is completed, the turn has that row and the added ones. */
  lemma MineBeforeCompletion(table: Table, t: string, rows: seq<Row>, user: string)
    requires Persistable(t, rows) && Completable(Mine(table, t), t, user)
    ensures Mine(Inserted(WithoutCheckpoint(table, t), rows), t) == [Mine(table, t)[0]] + Numbered(rows, table.nextId)
  {
    FilterSwap(InTurn(t), NoCheckpoint(t), table.entries);
    UserIsKept(Mine(table, t), t, user);
    MineInserted(WithoutCheckpoint(table, t), rows, t, t);
  }

  lemma OwnRowsCompleted(table: Table, t: string, rows: seq<Row>, user: string)
    requires Persistable(t, rows) && Completable(Mine(table, t), t, user)
    ensures Completed(table, t, rows).Some?
    ensures RowsIn(Mine(Completed(table, t, rows).value, t)) == [PendingUserRow(t, user)] + rows
  {
    MineBeforeCompletion(table, t, rows, user);
    var first, added := Mine(table, t)[0], Numbered(rows, table.nextId);
    var next := Inserted(WithoutCheckpoint(table, t), rows);
    OnlyPending(first, added, t, user);
    FilterWithin(PendingUsers(t), InTurn(t), next.entries);
    FilterMap(InTurn(t), Completing(t), next.entries);
    RowsWhenCompleted(first, added, t, user, rows);
  }

  lemma RowsWhenCompleted(first: Entry, added: seq<Entry>, t: string, user: string, rows: seq<Row>)
    requires first.row == UserRow(t, user) && RowsIn(added) == rows && forall i | 0 <= i < |rows| :: rows[i].complete
    ensures RowsIn(Map(Completing(t), [first] + added)) == [PendingUserRow(t, user)] + rows
  {
    assert forall i | 0 <= i < |added| :: added[i].row == rows[i];
  }

  lemma OtherRowsAfterCompletion(table: Table, t: string, rows: seq<Row>, other: string)
    requires Persistable(t, rows) && Completed(table, t, rows).Some? && other != t
    ensures Mine(Completed(table, t, rows).value, other) == Mine(table, other)
  {
    MineInserted(WithoutCheckpoint(table, t), rows, t, other);
    FilterSwap(InTurn(other), NoCheckpoint(t), table.entries);
    OthersUntouched(table, t, other);
    FilterMap(InTurn(other), Completing(t), Inserted(WithoutCheckpoint(table, t), rows).entries);
  }

  lemma UserIsKept(mine: seq<Entry>, t: string, user: string)
    requires 1 <= |mine| <= 2 && mine[0].row == UserRow(t, user)
    requires |mine| == 2 ==> IsCheckpoint(mine[1].row, t)
    ensures Filter(NoCheckpoint(t), mine) == [mine[0]]
  {
    FilterOne(NoCheckpoint(t), mine[0]);
    assert |mine| == 1 ==> mine == [mine[0]];
    if |mine| == 2 {
      FilterTwo(NoCheckpoint(t), mine);
    }
  }

  lemma FilterTwo(keep: Entry -> bool, entries: seq<Entry>)
    requires |entries| == 2 && keep(entries[0]) && !keep(entries[1])
    ensures Filter(keep, entries) == [entries[0]]
  {
    assert entries[1..] == [entries[1]];
    FilterOne(keep, entries[1]);
  }

  lemma FilterOne(keep: Entry -> bool, e: Entry)
    ensures Filter(keep, [e]) == if keep(e) then [e] else []
  {
    assert [e][1..] == [];
  }

  lemma OnlyPending(first: Entry, added: seq<Entry>, t: string, user: string)
    requires first.row == UserRow(t, user) && forall i | 0 <= i < |added| :: added[i].row.complete
    ensures Filter(PendingUsers(t), [first] + added) == [first]
  {
    assert ([first] + added)[1..] == added;
    FilterNone(PendingUsers(t), added);
  }

  lemma OthersUntouched(table: Table, t: string, other: string)
    requires other != t
    ensures Filter(NoCheckpoint(t), Mine(table, other)) == Mine(table, other)
    ensures Map(Completing(t), Mine(table, other)) == Mine(table, other)
  {
    var mine := Mine(table, other);
    forall i | 0 <= i < |mine|
      ensures mine[i].row.turnId == other
    {
      FilterMembers(InTurn(other), table.entries, mine[i]);
    }
    FilterAll(NoCheckpoint(t), mine);
  }

  /** Looking up the checkpoint looks at the turn's own rows. */
  lemma FindsOwn(table: Table, t: string, turn: LiveTurn)
    requires Incomplete(Mine(table, t), t, turn)
    ensures FindCheckpoint(table, t) == if |Mine(table, t)| == 2 then Some(Mine(table, t)[1].id) else None
  {
    var mine := Mine(table, t);
    FilterWithin(Checkpoints(t), InTurn(t), table.entries);
    var rest := mine[1..];
    FilterAll(Checkpoints(t), rest);
    assert !Checkpoints(t)(mine[0]);
    assert Filter(Checkpoints(t), mine) == rest;
  }

  // ---- one step -----------------------------------------------------------

  lemma KeysStay(w: World, e: Event)
    requires KeysOk(w.table) && Enabled(w, e)
    ensures KeysOk(TableAfter(w, e))
  {
    match e
    case SavePending(t, content, _, _) => KeysInserted(w.table, [UserRow(t, content)]);
    case Write(t, _, _) =>
      var turn := w.turns[t];
      KeysInserted(w.table, [CheckpointRow(t, turn.checkpoint.content, turn.checkpoint.reasoning)]);
    case Complete(t, rows, _) =>
      KeysFiltered(w.table, NoCheckpoint(t));
      KeysInserted(w.table.(entries := Filter(NoCheckpoint(t), w.table.entries)), rows);
    case _ =>
  }

  lemma PendingSaved(w: World, e: Event, other: string)
    requires Inv(w) && Enabled(w, e) && e.SavePending?
    ensures TurnOk(Mine(TableAfter(w, e), e.t), e.t, TurnAfter(w, e))
    ensures other != e.t ==> Mine(TableAfter(w, e), other) == Mine(w.table, other)
  {
    assert Mine(w.table, e.t) == [];
    UserRowSaved(w.table, e.t, e.content, other);
  }

  lemma UserRowSaved(table: Table, t: string, content: string, other: string)
    requires Mine(table, t) == []
    ensures RowsIn(Mine(Inserted(table, [UserRow(t, content)]), t)) == [UserRow(t, content)]
    ensures other != t ==> Mine(Inserted(table, [UserRow(t, content)]), other) == Mine(table, other)
  {
    MineInserted(table, [UserRow(t, content)], t, other);
    assert Mine(Inserted(table, [UserRow(t, content)]), t) == Numbered([UserRow(t, content)], table.nextId);
  }

  /** A first save adds the turn's checkpoint row. */
  lemma CheckpointCreated(w: World, e: Event)
    requires Inv(w) && Enabled(w, e) && e.Write? && w.turns[e.t].pc.found.None?
    ensures TurnOk(Mine(TableAfter(w, e), e.t), e.t, TurnAfter(w, e))
  {
    var turn, mine := w.turns[e.t], Mine(w.table, e.t);
    assert TurnOk(mine, e.t, turn) && Incomplete(mine, e.t, turn);
    MineInserted(w.table, [CheckpointRow(e.t, turn.checkpoint.content, turn.checkpoint.reasoning)], e.t, e.t);
  }

  /** A later save rewrites the turn's second row, the one it found. */
  lemma CheckpointRewritten(w: World, e: Event)
    requires Inv(w) && Enabled(w, e) && e.Write? && w.turns[e.t].pc.found.Some?
    ensures |Mine(w.table, e.t)| == 2 && Mine(w.table, e.t)[1].id == w.turns[e.t].pc.found.value
    ensures TurnOk(Mine(TableAfter(w, e), e.t), e.t, TurnAfter(w, e))
  {
    var turn, mine := w.turns[e.t], Mine(w.table, e.t);
    assert TurnOk(mine, e.t, turn) && Incomplete(mine, e.t, turn);
    KeysDistinctIn(InTurn(e.t), w.table.entries);
    MineSaved(w.table, turn.pc.found.value, turn.checkpoint.content, turn.checkpoint.reasoning, e.t);
  }

  /** Rewriting a row of one turn leaves the rows of another alone. */
  lemma OthersNotRewritten(table: Table, t: string, k: nat, content: string, reasoning: string, other: string)
    requires KeysOk(table) && other != t && k < |Mine(table, t)|
    ensures var id := Mine(table, t)[k].id;
            Mine(table.(entries := Map(Saving(id, content, reasoning), table.entries)), other) == Mine(table, other)
  {
    var id, theirs := Mine(table, t)[k].id, Mine(table, other);
    MineSaved(table, id, content, reasoning, other);
    forall j | 0 <= j < |theirs|
      ensures theirs[j].id != id
    {
      KeyOfOneTurn(table, t, other, k, j);
    }
    assert Map(Saving(id, content, reasoning), theirs) == theirs;
  }

  lemma CheckpointWritten(w: World, e: Event, other: string)
    requires Inv(w) && Enabled(w, e) && e.Write?
    ensures TurnOk(Mine(TableAfter(w, e), e.t), e.t, TurnAfter(w, e))
    ensures other != e.t ==> Mine(TableAfter(w, e), other) == Mine(w.table, other)
  {
    var c := w.turns[e.t].checkpoint;
    if w.turns[e.t].pc.found.None? {
      CheckpointCreated(w, e);
      MineInserted(w.table, [CheckpointRow(e.t, c.content, c.reasoning)], e.t, other);
    } else {
      CheckpointRewritten(w, e);
      if other != e.t {
        OthersNotRewritten(w.table, e.t, 1, c.content, c.reasoning, other);
      }
    }
  }

  lemma TurnCompleted(w: World, e: Event, other: string)
    requires Inv(w) && Enabled(w, e) && e.Complete?
    ensures TurnOk(Mine(TableAfter(w, e), e.t), e.t, TurnAfter(w, e))
    ensures other != e.t ==> Mine(TableAfter(w, e), other) == Mine(w.table, other)
  {
    var turn, mine := w.turns[e.t], Mine(w.table, e.t);
    assert TurnOk(mine, e.t, turn) && Incomplete(mine, e.t, turn);
    OwnRowsCompleted(w.table, e.t, e.rows, turn.user);
    if other != e.t {
      OtherRowsAfterCompletion(w.table, e.t, e.rows, other);
    }
  }

  lemma TurnStays(w: World, e: Event, other: string)
    requires Inv(w) && Enabled(w, e)
    ensures TurnOk(Mine(TableAfter(w, e), e.t), e.t, TurnAfter(w, e))
    ensures other != e.t ==> Mine(TableAfter(w, e), other) == Mine(w.table, other)
  {
    match e
    case SavePending(_, _, _, _) => PendingSaved(w, e, other);
    case Write(_, _, _) => CheckpointWritten(w, e, other);
    case Complete(_, _, _) => TurnCompleted(w, e, other);
    case Find(t, _) =>
      assert TurnOk(Mine(w.table, t), t, w.turns[t]);
      FindsOwn(w.table, t, w.turns[t]);
    case Receive(t, _) => assert TurnOk(Mine(w.table, t), t, w.turns[t]);
    case Stop(t) => assert TurnOk(Mine(w.table, t), t, w.turns[t]);
  }

  lemma RememberingStays(w: World, e: Event)
    requires Inv(w) && Enabled(w, e)
    ensures Remembers(TurnAfter(w, e))
  {
    assert !e.SavePending? ==> Remembers(w.turns[e.t]);
    if e.Receive? {
      StreamedSnoc(w.turns[e.t].streamed, e.delta);
    }
  }

  lemma StepKeeps(w: World, e: Event)
    requires Inv(w) && Enabled(w, e)
    ensures Inv(Step(w, e))
  {
    KeysStay(w, e);
    var next := Step(w, e);
    RememberingStays(w, e);
    forall t | t in next.turns
      ensures TurnOk(Mine(next.table, t), t, next.turns[t])
    {
      TurnStays(w, e, t);
    }
    forall t: string | t !in next.turns
      ensures Mine(next.table, t) == []
    {
      TurnStays(w, e, t);
    }
  }

  lemma {:induction false} RunKeeps(from: World, events: seq<Event>, to: World)
    requires Inv(from) && Leads(from, events, to)
    ensures Inv(to)
    decreases |events|
  {
    if events != [] {
      StepKeeps(from, events[0]);
      RunKeeps(Step(from, events[0]), events[1..], to);
    }
  }

  lemma ReachableIsGood(w: World)
    requires Reachable(w)
    ensures Inv(w)
  {
    var events :| Leads(START, events, w);
    RunKeeps(START, events, w);
  }

  lemma {:induction false} Extend(from: World, events: seq<Event>, to: World, e: Event)
    requires Leads(from, events, to) && Enabled(to, e)
    ensures Leads(from, events + [e], Step(to, e))
    decreases |events|
  {
    assert ([] + [e])[1..] == [];
    if events != [] {
      assert (events + [e])[1..] == events[1..] + [e];
      Extend(Step(from, events[0]), events[1..], to, e);
    }
  }

  // ---- what holds in every reachable table --------------------------------

  ghost predicate AllIncomplete(rows: seq<Row>) {
    && rows != [] && rows[0].role.User? && !rows[0].complete
    && |rows| <= 2 && (|rows| == 2 ==> rows[1].role.Assistant? && !rows[1].complete)
  }

  ghost predicate AllComplete(rows: seq<Row>) {
    rows != [] && rows[0].role.User? && forall i | 0 <= i < |rows| :: rows[i].complete
  }

  /** The rows of a turn are all incomplete - one user row and at most one checkpoint - or all
      complete, the user row among them. */
  lemma TurnsAreAtomic(w: World, t: string)
    requires Reachable(w)
    ensures var rows := RowsIn(Mine(w.table, t)); rows == [] || AllIncomplete(rows) || AllComplete(rows)
  {
    ReachableIsGood(w);
    if t in w.turns {
      assert TurnOk(Mine(w.table, t), t, w.turns[t]);
      if w.turns[t].final.Some? {
        var rows := RowsIn(Mine(w.table, t));
        assert forall i | 1 <= i < |rows| :: rows[i] == w.turns[t].final.value[i - 1];
      }
    } else {
      assert Mine(w.table, t) == [];
    }
  }

  /** Until a turn is completed, its stored checkpoint is a prefix of what was streamed, and all of it
      when nothing is waiting to be saved; with no checkpoint stored, nothing waiting means that nothing
      was streamed. */
  lemma CheckpointIsPrefix(w: World, t: string)
    requires Reachable(w) && t in w.turns && w.turns[t].final.None?
    ensures var mine, waiting := Mine(w.table, t), w.turns[t].checkpoint.dirty;
            var text, reasoning := Texts(w.turns[t].streamed), Reasonings(w.turns[t].streamed);
            if |mine| == 2 then
              var row := mine[1].row;
              && row == Row(t, false, Assistant, row.content, row.reasoning, "", NoCalls, "", false, false)
              && row.content <= text && row.reasoning <= reasoning
              && (!waiting ==> row.content == text && row.reasoning == reasoning)
            else |mine| < 2 && (!waiting ==> text == "" && reasoning == "")
  {
    ReachableIsGood(w);
    assert TurnOk(Mine(w.table, t), t, w.turns[t]) && Remembers(w.turns[t]);
  }

  /** A new turn streams once its pending user message is reported as saved, and is over if it is not. */
  lemma TurnStarts(w: World, t: string, content: string, commits: bool, reported: bool)
    requires Reachable(w) && t !in w.turns && (reported ==> commits)
    ensures var e := SavePending(t, content, commits, reported);
            && Enabled(w, e) && Reachable(Step(w, e))
            && (Step(w, e).turns[t].pc.Streaming? <==> reported)
            && RowsIn(Mine(Step(w, e).table, t)) == if commits then [UserRow(t, content)] else []
  {
    ReachableIsGood(w);
    assert Mine(w.table, t) == [];
    UserRowSaved(w.table, t, content, t);
    var events :| Leads(START, events, w);
    Extend(START, events, w, SavePending(t, content, commits, reported));
  }

  /** An empty delta leaves nothing to save, and only a checkpoint that waits to be saved is ever saved. */
  lemma NothingNewNothingSaved(w: World, t: string)
    requires t in w.turns && w.turns[t].pc.Streaming?
    ensures var e := Receive(t, Delta("", ""));
            Enabled(w, e) && TurnAfter(w, e).checkpoint == w.turns[t].checkpoint && TableAfter(w, e) == w.table
    ensures forall ok :: Enabled(w, Find(t, ok)) <==> w.turns[t].checkpoint.dirty
  {}

  /** What does not take effect in the database changes no row, and a save that is not reported as done still
      waits. */
  lemma FailuresChangeNothing(w: World, e: Event)
    requires Enabled(w, e)
    requires (e.SavePending? || e.Write? || e.Complete?) ==> !e.commits
    ensures TableAfter(w, e) == w.table
    ensures e.Write? ==> TurnAfter(w, e).checkpoint == w.turns[e.t].checkpoint.(dirty := true)
    ensures e.Find? && !e.ok ==> TurnAfter(w, e) == w.turns[e.t]
    ensures e.Complete? ==> TurnAfter(w, e).final.None? && TurnAfter(w, e).pc.Over?
  {}

  /** A stopped turn takes no other step any more. */
  lemma StoppedTurnIsOver(w: World, t: string, e: Event)
    requires t in w.turns && Enabled(Step(w, Stop(t)), e) && e.t == t
    ensures e.Stop?
  {}

  /** A checkpoint that waits can be saved, and the stored one is then all of what was streamed. */
  lemma WaitingCanBeSaved(w: World, t: string)
    requires Reachable(w) && t in w.turns && w.turns[t].pc.Streaming? && w.turns[t].checkpoint.dirty
    ensures Enabled(w, Find(t, true)) && Enabled(Step(w, Find(t, true)), Write(t, true, true))
    ensures var saved := Step(Step(w, Find(t, true)), Write(t, true, true));
            && Reachable(saved) && saved.turns[t].pc.Streaming? && !saved.turns[t].checkpoint.dirty
            && |Mine(saved.table, t)| == 2
            && Mine(saved.table, t)[1].row.content == Texts(w.turns[t].streamed)
            && Mine(saved.table, t)[1].row.reasoning == Reasonings(w.turns[t].streamed)
  {
    var found := Step(w, Find(t, true));
    var saved := Step(found, Write(t, true, true));
    var events :| Leads(START, events, w);
    Extend(START, events, w, Find(t, true));
    Extend(START, events + [Find(t, true)], found, Write(t, true, true));
    ReachableIsGood(found);
    ReachableIsGood(saved);
    assert TurnOk(Mine(found.table, t), t, found.turns[t]) && TurnOk(Mine(saved.table, t), t, saved.turns[t]);
    SavedIsStored(found, t);
    CheckpointIsPrefix(saved, t);
  }

  /** A committed save leaves the user's row and the checkpoint. */
  lemma SavedIsStored(w: World, t: string)
    requires Inv(w) && t in w.turns && w.turns[t].pc.Writing?
    ensures |Mine(TableAfter(w, Write(t, true, true)), t)| == 2
  {
    assert TurnOk(Mine(w.table, t), t, w.turns[t]);
    var c := w.turns[t].checkpoint;
    match w.turns[t].pc.found
    case None => MineInserted(w.table, [CheckpointRow(t, c.content, c.reasoning)], t, t);
    case Some(id) => MineSaved(w.table, id, c.content, c.reasoning, t);
  }

  // ---- completion on any table --------------------------------------------

  lemma {:induction false} FilterAgrees(p: Entry -> bool, q: Entry -> bool, entries: seq<Entry>)
    requires forall e: Entry :: p(e) == q(e)
    ensures Filter(p, entries) == Filter(q, entries)
  {
    if entries != [] {
      FilterAgrees(p, q, entries[1..]);
    }
  }

  /** The completing transaction on any table whatever, reachable or not: of the turn's rows exactly the
      incomplete assistant ones go, the new rows come last, and the one incomplete user row becomes complete;
      every other row stays as it is. With none or several such rows it is refused. */
  lemma CompletionOnAnyTable(table: Table, t: string, rows: seq<Row>)
    ensures var kept := Filter((e: Entry) => !(e.row.turnId == t && e.row.role.Assistant? && !e.row.complete),
                               table.entries);
            var all := kept + Numbered(rows, table.nextId);
            var pending := (e: Entry) => e.row.turnId == t && e.row.role.User? && !e.row.complete;
            var completed := Completed(table, t, rows);
            && (completed.Some? <==> |Filter(pending, all)| == 1)
            && (completed.Some? ==>
                  && |completed.value.entries| == |all|
                  && forall i | 0 <= i < |all| ::
                       completed.value.entries[i]
                       == if pending(all[i]) then all[i].(row := all[i].row.(complete := true)) else all[i])
  {
    var keep := (e: Entry) => !(e.row.turnId == t && e.row.role.Assistant? && !e.row.complete);
    var pending := (e: Entry) => e.row.turnId == t && e.row.role.User? && !e.row.complete;
    FilterAgrees(keep, NoCheckpoint(t), table.entries);
    FilterAgrees(pending, PendingUsers(t), Filter(keep, table.entries) + Numbered(rows, table.nextId));
  }

  /** While a turn streams, the completing transaction is never refused. */
  lemma CompletionIsNeverRefused(w: World, t: string, rows: seq<Row>)
    requires Reachable(w) && t in w.turns && w.turns[t].pc.Streaming? && Persistable(t, rows)
    ensures Completed(w.table, t, rows).Some?
  {
    ReachableIsGood(w);
    assert TurnOk(Mine(w.table, t), t, w.turns[t]);
    OwnRowsCompleted(w.table, t, rows, w.turns[t].user);
  }

  lemma FirstRowSplits(entries: seq<Entry>)
    requires entries != []
    ensures RowsIn(entries) != [] && RowsIn(entries)[0] == entries[0].row
    ensures RowsIn(entries)[1..] == RowsIn(entries[1..])
  {}

  lemma {:induction false} CompleteRowsOf(entries: seq<Entry>, t: string)
    ensures RowsOf(t, StoredHistory.Complete(RowsIn(entries)))
         == StoredHistory.Complete(RowsIn(Filter(InTurn(t), entries)))
    decreases |entries|
  {
    if entries != [] {
      var first, rest := entries[0], entries[1..];
      CompleteRowsOf(rest, t);
      FirstRowSplits(entries);
      RowsOfConcat(t, if first.row.complete then [Some(first.row)] else [], StoredHistory.Complete(RowsIn(rest)));
      RowsOfOne(t, first.row);
      var mine := Filter(InTurn(t), rest);
      assert ([first] + mine)[1..] == mine;
      FirstRowSplits([first] + mine);
      assert Filter(InTurn(t), entries) == if first.row.turnId == t then [first] + mine else mine;
    }
  }

  lemma RowsOfOne(t: string, row: Row)
    ensures RowsOf(t, [Some(row)]) == if row.turnId == t then [Some(row)] else []
  {
    assert [Some(row)][..0] == [];
  }

  lemma {:induction false} RowsOfConcat(t: string, a: seq<Option<Row>>, b: seq<Option<Row>>)
    ensures RowsOf(t, a + b) == RowsOf(t, a) + RowsOf(t, b)
    decreases |b|
  {
    if b == [] {
      assert a + b == a;
    } else {
      var n := |b| - 1;
      assert (a + b)[..|a + b| - 1] == a + b[..n] && (a + b)[|a + b| - 1] == b[n];
      RowsOfConcat(t, a, b[..n]);
    }
  }

  lemma {:induction false} CompleteAll(rows: seq<Row>)
    requires forall i | 0 <= i < |rows| :: rows[i].complete
    ensures StoredHistory.Complete(rows) == Stored(rows)
  {
    if rows != [] {
      CompleteAll(rows[1..]);
      assert rows == [rows[0]] + rows[1..];
      StoredCons(rows[0], rows[1..]);
    }
  }

  lemma {:induction false} CompleteNone(rows: seq<Row>)
    requires forall i | 0 <= i < |rows| :: !rows[i].complete
    ensures StoredHistory.Complete(rows) == []
  {
    if rows != [] {
      CompleteNone(rows[1..]);
    }
  }

  lemma CompleteRowsLoaded(t: string, user: string, final: seq<Row>)
    requires Persistable(t, final)
    ensures StoredHistory.Complete([PendingUserRow(t, user)] + final) == [Some(PendingUserRow(t, user))] + Stored(final)
  {
    CompleteAll([PendingUserRow(t, user)] + final);
    StoredCons(PendingUserRow(t, user), final);
  }

  lemma IncompleteRows(mine: seq<Entry>, t: string, turn: LiveTurn)
    requires mine == [] || Incomplete(mine, t, turn)
    ensures forall i | 0 <= i < |mine| :: !RowsIn(mine)[i].complete
  {}

  lemma CompleteRowsOfTurn(mine: seq<Entry>, t: string, turn: LiveTurn)
    requires TurnOk(mine, t, turn)
    ensures StoredHistory.Complete(RowsIn(mine))
         == if turn.final.Some? then [Some(PendingUserRow(t, turn.user))] + Stored(turn.final.value) else []
  {
    match turn.final
    case Some(rows) => CompleteRowsLoaded(t, turn.user, rows);
    case None =>
      IncompleteRows(mine, t, turn);
      CompleteNone(RowsIn(mine));
  }

  /** Loading a history sees of each turn either nothing or the user's message with everything the
      run handed over, never a part. */
  lemma LoadingSeesWholeTurns(w: World, t: string)
    requires Reachable(w)
    ensures RowsOf(t, StoredHistory.Complete(RowsIn(w.table.entries)))
         == if t in w.turns && w.turns[t].final.Some?
            then [Some(PendingUserRow(t, w.turns[t].user))] + Stored(w.turns[t].final.value)
            else []
  {
    ReachableIsGood(w);
    CompleteRowsOf(w.table.entries, t);
    if t in w.turns {
      CompleteRowsOfTurn(Mine(w.table, t), t, w.turns[t]);
    } else {
      assert Mine(w.table, t) == [];
    }
  }

  lemma {:induction false} StoredRowsArePersistable(json: Json, t: string, messages: seq<Message>)
    requires RowsFor(json, t, messages).Ok?
    ensures Persistable(t, RowsFor(json, t, messages).value)
  {
    if messages != [] {
      StoredRowsArePersistable(json, t, messages[1..]);
    }
  }

  /** Whatever a run hands over while its turn streams, the transaction that stores it takes place. */
  lemma RunIsStored(w: World, json: Json, t: string, messages: seq<Message>)
    requires Reachable(w) && t in w.turns && w.turns[t].pc.Streaming? && RowsFor(json, t, messages).Ok?
    ensures var e := Complete(t, RowsFor(json, t, messages).value, true);
            && Enabled(w, e) && Reachable(Step(w, e)) && Step(w, e).turns[t].user == w.turns[t].user
            && Step(w, e).turns[t].final == Some(RowsFor(json, t, messages).value)
  {
    var rows := RowsFor(json, t, messages).value;
    StoredRowsArePersistable(json, t, messages);
    CompletionIsNeverRefused(w, t, rows);
    var events :| Leads(START, events, w);
    Extend(START, events, w, Complete(t, rows, true));
  }

  /** From a run to the next history: a turn completed with a run's messages is loaded as the user's
      message and those messages, normalised, or not at all if the run ended on an injection. */
  lemma CompletedTurnIsLoaded(w: World, json: Json, t: string, messages: seq<Message>)
    requires Reachable(w) && t in w.turns
    requires RowsFor(json, t, messages).Ok? && w.turns[t].final == Some(RowsFor(json, t, messages).value)
    requires GoodTurn(w.turns[t].user, messages)
    ensures TurnMessages(json, RowsOf(t, StoredHistory.Complete(RowsIn(w.table.entries))))
         == if EndsOnInjection(messages) then [] else [UserMessage(w.turns[t].user)] + Replayed(OfTurn(messages))
  {
    LoadingSeesWholeTurns(w, t);
    TurnSurvivesExactlyWithoutFinalInjection(json, t, w.turns[t].user, messages);
  }

  // ---- the checkpoint in place --------------------------------------------

  const CHECKPOINT_INTERVAL := 750

  /** What the database does with the next lookup and the next write. */
  datatype Attempt = Attempt(findOk: bool, commits: bool, reported: bool)

  class MessageTable {
    var table: Table

    constructor ()
      ensures table == START.table
    {
      table := Table([], 0);
    }
  }

  function Upserted(table: Table, t: string, c: Checkpoint, db: Attempt): Table {
    if db.findOk && db.commits
    then WriteCheckpoint(table, t, FindCheckpoint(table, t), c.content, c.reasoning)
    else table
  }

  predicate UpsertSucceeds(db: Attempt) {
    db.findOk && db.commits && db.reported
  }

  /** A save as the checkpoint does it is a lookup and a write of the turn, with nothing in between. */
  lemma SavingIsFindAndWrite(w: World, t: string, db: Attempt)
    requires t in w.turns && w.turns[t].pc.Streaming? && w.turns[t].checkpoint.dirty
    ensures var turn := w.turns[t];
            var found, write := Step(w, Find(t, db.findOk)), Write(t, db.commits, db.commits && db.reported);
            if db.findOk then
              && Enabled(found, write)
              && TableAfter(found, write) == Upserted(w.table, t, turn.checkpoint, db)
              && TurnAfter(found, write).checkpoint == turn.checkpoint.(dirty := !UpsertSucceeds(db))
            else
              && Upserted(w.table, t, turn.checkpoint, db) == w.table == found.table
              && found.turns[t].checkpoint == turn.checkpoint && !UpsertSucceeds(db)
  {}

  class TurnCheckpoint {
    const turnId: string
    const messages: MessageTable
    var content: string
    var reasoning: string
    var dirty: bool
    var lastTry: int

    ghost function View(): Checkpoint
      reads this
    {
      Checkpoint(content, reasoning, dirty)
    }

    constructor (turnId: string, messages: MessageTable)
      ensures View() == NO_CHECKPOINT && this.turnId == turnId && this.messages == messages && lastTry == 0
    {
      this.turnId := turnId;
      this.messages := messages;
      content, reasoning, dirty, lastTry := "", "", false, 0;
    }

    method Append(delta: Delta) returns (changed: bool)
      modifies this
      ensures content == old(content) + delta.text && reasoning == old(reasoning) + delta.reasoning
      ensures View() == Appended(old(View()), delta) && lastTry == old(lastTry)
      ensures changed <==> delta != Delta("", "")
    {
      if delta.text == "" && delta.reasoning == "" {
        return false;
      }
      content := content + delta.text;
      reasoning := reasoning + delta.reasoning;
      dirty := true;
      return true;
    }

    /** Remembers a delta, and saves if the last try was long enough ago. */
    method Add(delta: Delta, now: int, db: Attempt)
      modifies this, messages
      ensures var c := Appended(old(View()), delta);
              if delta == Delta("", "") || now - old(lastTry) < 750
              then View() == c && messages.table == old(messages.table) && lastTry == old(lastTry)
              else
                && View() == c.(dirty := !UpsertSucceeds(db)) && lastTry == now
                && messages.table == Upserted(old(messages.table), turnId, c, db)
    {
      var changed := Append(delta);
      if !changed {
        return;
      }
      if now - lastTry < CHECKPOINT_INTERVAL {
        return;
      }
      Save(now, db);
    }

    method Flush(now: int, db: Attempt)
      modifies this, messages
      ensures if old(dirty)
              then
                && View() == old(View()).(dirty := !UpsertSucceeds(db)) && lastTry == now
                && messages.table == Upserted(old(messages.table), turnId, old(View()), db)
              else View() == old(View()) && messages.table == old(messages.table) && lastTry == old(lastTry)
    {
      if !dirty {
        return;
      }
      Save(now, db);
    }

    method Save(now: int, db: Attempt)
      requires dirty
      modifies this, messages
      ensures View() == old(View()).(dirty := !UpsertSucceeds(db)) && lastTry == now
      ensures messages.table == Upserted(old(messages.table), turnId, old(View()), db)
    {
      lastTry := now;
      var ok := Upsert(db);
      if !ok {
        return;
      }
      dirty := false;
    }

    method Upsert(db: Attempt) returns (ok: bool)
      modifies messages
      ensures messages.table == Upserted(old(messages.table), turnId, View(), db)
      ensures ok == UpsertSucceeds(db)
    {
      if !db.findOk {
        return false;
      }
      var found := FindCheckpoint(messages.table, turnId);
      if db.commits {
        messages.table := WriteCheckpoint(messages.table, turnId, found, content, reasoning);
      }
      return db.commits && db.reported;
    }
  }
}
