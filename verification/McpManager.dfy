/** The generation-guarded connection statuses of MCP servers. Every section under the manager's
    mutex is one step; lifecycle calls, connect attempts, client deaths and retry timers take steps
    in any order. The map of live clients is not guarded by generations and is not modelled. */
module McpManager {

  datatype State = NoState | Connecting | Connected | Failed | Disabled

  datatype Reason = NoReason | Unreachable | AccessDenied | NotResponding | OtherReason

  /** Times and durations are numbers; zero is the unset value. */
  datatype Status = Status(
    state: State,
    reason: Reason,
    error: string,
    toolCount: int,
    attemptAt: int,
    successAt: int,
    failureAt: int,
    latency: int,
    lastError: string)

  const ZERO := Status(NoState, NoReason, "", 0, 0, 0, 0, 0, "")

  // ---- statuses -----------------------------------------------------------

  function ConnectionLatency(startedAt: int, completedAt: int): int {
    if startedAt == 0 then 0 else completedAt - startedAt
  }

  function ConnectingStatus(startedAt: int): Status {
    ZERO.(state := Connecting, attemptAt := startedAt)
  }

  function SuccessfulStatus(startedAt: int, now: int, tools: int): Status {
    ZERO.(state := Connected, toolCount := tools, attemptAt := startedAt, successAt := now,
          latency := ConnectionLatency(startedAt, now))
  }

  function FailedStatus(startedAt: int, now: int, reason: Reason, message: string): Status {
    ZERO.(state := Failed, reason := reason, error := message, attemptAt := startedAt, failureAt := now,
          latency := ConnectionLatency(startedAt, now), lastError := message)
  }

  const DISABLED := ZERO.(state := Disabled)

  /** Telemetry that the next status leaves unset is kept from the previous one. */
  function MergeStatus(previous: Status, next: Status): Status {
    next.(attemptAt := if next.attemptAt == 0 then previous.attemptAt else next.attemptAt,
          successAt := if next.successAt == 0 then previous.successAt else next.successAt,
          failureAt := if next.failureAt == 0 then previous.failureAt else next.failureAt,
          latency := if next.latency == 0 then previous.latency else next.latency,
          lastError := if next.lastError == "" then previous.lastError else next.lastError)
  }

  // ---- the state under the mutex ------------------------------------------

  /** `applied` remembers, for each server, the statuses written since it was last removed, and
      `written` the generation at which the last of them was written. */
  datatype Shared = Shared(
    generations: map<string, nat>,
    statuses: map<string, Status>,
    applied: map<string, seq<Status>>,
    written: map<string, nat>)

  function Generation(s: Shared, name: string): nat {
    if name in s.generations then s.generations[name] else 0
  }

  function StatusOf(s: Shared, name: string): Status {
    if name in s.statuses then s.statuses[name] else ZERO
  }

  function AppliedTo(s: Shared, name: string): seq<Status> {
    if name in s.applied then s.applied[name] else []
  }

  function Bumped(s: Shared, name: string): Shared {
    s.(generations := s.generations[name := Generation(s, name) + 1])
  }

  /** The generations of the named servers, taken in any order, go up by one. */
  ghost function Raised(generations: map<string, nat>, names: set<string>): (raised: map<string, nat>)
    requires names <= generations.Keys
    ensures raised.Keys == generations.Keys
    ensures forall name | name in generations ::
              raised[name] == generations[name] + if name in names then 1 else 0
    decreases names
  {
    if names == {} then generations
    else
      var name :| name in names;
      Raised(generations[name := generations[name] + 1], names - {name})
  }

  ghost function BumpedAll(s: Shared): Shared {
    s.(generations := Raised(s.generations, s.generations.Keys))
  }

  function Written(s: Shared, name: string, st: Status): Shared {
    s.(statuses := s.statuses[name := MergeStatus(StatusOf(s, name), st)],
       applied := s.applied[name := AppliedTo(s, name) + [st]],
       written := s.written[name := Generation(s, name)])
  }

  function WrittenIfCurrent(s: Shared, name: string, gen: nat, st: Status): Shared {
    if Generation(s, name) == gen then Written(s, name, st) else s
  }

  function Forgotten(s: Shared, name: string): Shared {
    s.(statuses := s.statuses - {name}, applied := s.applied - {name}, written := s.written - {name})
  }

  /** The last write was at the generation that is current. */
  predicate WrittenNow(s: Shared, name: string) {
    name in s.written && s.written[name] == Generation(s, name)
  }

  predicate MayRetry(s: Shared, name: string, gen: nat) {
    Generation(s, name) == gen && StatusOf(s, name).state == Failed
  }

  // ---- tasks and steps ----------------------------------------------------

  /** What is under way. A lifecycle call bumps the generation, lets the mutex go and writes later;
      `Firing` is a retry that has passed its check and is about to connect; `Late` is an attempt
      that was force-failed at the outer deadline but may still return. */
  datatype Task =
    | Firing(name: string)
    | Marking(name: string, gen: nat, startedAt: int)
    | Racing(name: string, gen: nat, startedAt: int)
    | Late(name: string, gen: nat, startedAt: int)
    | Adding(name: string, gen: nat, startedAt: int)
    | Watching(name: string, gen: nat)
    | Timer(name: string, gen: nat)
    | Removing(name: string, gen: nat)
    | Disabling(name: string, gen: nat)

  /** `closed` remembers the generations that `Close` started. */
  datatype World = World(shared: Shared, tasks: map<nat, Task>, closed: set<(string, nat)>)

  datatype ConnectOutcome = Success(tools: int) | Failure(reason: Reason, message: string)

  /** `u` is a fresh task id, `t` the task that takes the step. */
  datatype Event =
    | CallConnect(u: nat, name: string, now: int)
    | CallAdd(u: nat, name: string, now: int)
    | CallRemove(u: nat, name: string)
    | CallDisable(u: nat, name: string)
    | Close
    | Reconnect(t: nat, now: int)
    | Mark(t: nat)
    | StoreClient(t: nat, u: nat)
    | Settle(t: nat, u: nat, now: int, outcome: ConnectOutcome)
    | Deadline(t: nat, u: nat, now: int)
    | Die(t: nat, u: nat, now: int, reason: Reason, message: string)
    | StopWatching(t: nat)
    | Fire(t: nat)
    | StopTimer(t: nat)
    | FinishRemove(t: nat)
    | FinishDisable(t: nat)

  const START := World(Shared(map[], map[], map[], map[]), map[], {})

  /** A lifecycle call by the application. */
  predicate IsCall(e: Event) {
    e.CallConnect? || e.CallAdd? || e.CallRemove? || e.CallDisable?
  }

  /** A result, forced timeout or client death, or the mark that opens an attempt. */
  predicate IsAttemptStep(e: Event) {
    e.Mark? || e.Settle? || e.Deadline? || e.Die?
  }

  predicate Connects(task: Task) {
    task.Racing? || task.Late? || task.Adding?
  }

  predicate Enabled(w: World, e: Event) {
    if e.Close? then true
    else if IsCall(e) then e.u !in w.tasks
    else
      && e.t in w.tasks
      && var task := w.tasks[e.t];
         match e
         case Reconnect(_, _) => task.Firing?
         case Mark(_) => task.Marking?
         case StoreClient(_, u) => Connects(task) && u !in w.tasks
         case Settle(_, u, _, _) => Connects(task) && u !in w.tasks
         case Deadline(_, u, _) => task.Racing? && u !in w.tasks
         case Die(_, u, _, _, _) => task.Watching? && u !in w.tasks
         case StopWatching(_) => task.Watching?
         case Fire(_) => task.Timer?
         case StopTimer(_) => task.Timer?
         case FinishRemove(_) => task.Removing?
         case FinishDisable(_) => task.Disabling?
         case _ => false
  }

  function Opened(w: World, u: nat, task: Task): World {
    World(Bumped(w.shared, task.name), w.tasks[u := task], w.closed)
  }

  function NextGeneration(w: World, name: string): nat {
    Generation(w.shared, name) + 1
  }

  /** An attempt's status is applied if its generation is current; an applied failure arms a retry. */
  function Applied(w: World, tasks: map<nat, Task>, name: string, gen: nat, st: Status, u: nat,
                   retries: bool): World
  {
    var retry := Generation(w.shared, name) == gen && st.state == Failed && retries;
    World(WrittenIfCurrent(w.shared, name, gen, st), if retry then tasks[u := Timer(name, gen)] else tasks, w.closed)
  }

  function StatusFor(startedAt: int, now: int, outcome: ConnectOutcome): Status {
    match outcome
    case Success(tools) => SuccessfulStatus(startedAt, now, tools)
    case Failure(reason, message) => FailedStatus(startedAt, now, reason, message)
  }

  const TIMED_OUT := "connect timed out"

  ghost function Step(w: World, e: Event): World
    requires Enabled(w, e)
  {
    match e
    case CallConnect(u, name, now) => Opened(w, u, Marking(name, NextGeneration(w, name), now))
    case CallAdd(u, name, now) => Opened(w, u, Adding(name, NextGeneration(w, name), now))
    case CallRemove(u, name) => Opened(w, u, Removing(name, NextGeneration(w, name)))
    case CallDisable(u, name) => Opened(w, u, Disabling(name, NextGeneration(w, name)))
    case Close =>
      World(BumpedAll(w.shared), w.tasks, w.closed + BumpedAll(w.shared).generations.Items)
    case Reconnect(t, now) =>
      Opened(w, t, Marking(w.tasks[t].name, NextGeneration(w, w.tasks[t].name), now))
    case Mark(t) =>
      var task := w.tasks[t];
      Applied(w, w.tasks[t := Racing(task.name, task.gen, task.startedAt)], task.name, task.gen,
              ConnectingStatus(task.startedAt), t, false)
    case StoreClient(t, u) => w.(tasks := w.tasks[u := Watching(w.tasks[t].name, w.tasks[t].gen)])
    case Settle(t, u, now, outcome) =>
      var task := w.tasks[t];
      Applied(w, w.tasks - {t}, task.name, task.gen, StatusFor(task.startedAt, now, outcome), u, !task.Adding?)
    case Deadline(t, u, now) =>
      var task := w.tasks[t];
      Applied(w, w.tasks[t := Late(task.name, task.gen, task.startedAt)], task.name, task.gen,
              FailedStatus(task.startedAt, now, NotResponding, TIMED_OUT), u, true)
    case Die(t, u, now, reason, message) =>
      var task := w.tasks[t];
      Applied(w, w.tasks - {t}, task.name, task.gen, FailedStatus(0, now, reason, message), u, true)
    case StopWatching(t) => w.(tasks := w.tasks - {t})
    case Fire(t) =>
      var task := w.tasks[t];
      w.(tasks := if MayRetry(w.shared, task.name, task.gen) then w.tasks[t := Firing(task.name)] else w.tasks - {t})
    case StopTimer(t) => w.(tasks := w.tasks - {t})
    case FinishRemove(t) => World(Forgotten(w.shared, w.tasks[t].name), w.tasks - {t}, w.closed)
    case FinishDisable(t) => World(Written(w.shared, w.tasks[t].name, DISABLED), w.tasks - {t}, w.closed)
  }

  ghost predicate Leads(from: World, events: seq<Event>, to: World)
    decreases events
  {
    if events == [] then from == to
    else Enabled(from, events[0]) && Leads(Step(from, events[0]), events[1..], to)
  }

  ghost predicate Reachable(w: World) {
    exists events :: Leads(START, events, w)
  }

  // ---- generations --------------------------------------------------------

  lemma GenerationsOnlyGrow(w: World, e: Event, name: string)
    requires Enabled(w, e)
    ensures Generation(w.shared, name) <= Generation(Step(w, e).shared, name)
    ensures IsCall(e) && e.name == name ==> Generation(w.shared, name) < Generation(Step(w, e).shared, name)
  {}

  lemma {:induction false} GenerationsGrowAlong(from: World, events: seq<Event>, to: World, name: string)
    requires Leads(from, events, to)
    ensures Generation(from.shared, name) <= Generation(to.shared, name)
    decreases |events|
  {
    if events != [] {
      GenerationsOnlyGrow(from, events[0], name);
      GenerationsGrowAlong(Step(from, events[0]), events[1..], to, name);
    }
  }

  /** Once a lifecycle call has moved a server past a generation, no mark, result, forced timeout or
      client death of that generation changes any status or arms a retry, in any later step. */
  lemma StaleAttemptsChangeNothing(from: World, events: seq<Event>, to: World, gen: nat, e: Event)
    requires Leads(from, events, to) && Enabled(to, e) && IsAttemptStep(e)
    requires to.tasks[e.t].gen == gen < Generation(from.shared, to.tasks[e.t].name)
    ensures Step(to, e).shared == to.shared
    ensures forall u | u in Step(to, e).tasks :: u in to.tasks && (u != e.t ==> Step(to, e).tasks[u] == to.tasks[u])
  {
    GenerationsGrowAlong(from, events, to, to.tasks[e.t].name);
  }

  // ---- what a step writes -------------------------------------------------

  /** The task that takes the step is of its server's current generation. */
  predicate IsCurrent(w: World, e: Event)
    requires Enabled(w, e) && IsAttemptStep(e)
  {
    w.tasks[e.t].gen == Generation(w.shared, w.tasks[e.t].name)
  }

  function OrElse(value: int, previous: int): int {
    if value == 0 then previous else value
  }

  /** What every step of an attempt leaves of the status before: only the fields it has a value for change. */
  predicate Records(before: Status, after: Status, attemptAt: int, successAt: int, failureAt: int, latency: int) {
    && after.attemptAt == OrElse(attemptAt, before.attemptAt)
    && after.successAt == OrElse(successAt, before.successAt)
    && after.failureAt == OrElse(failureAt, before.failureAt)
    && after.latency == OrElse(latency, before.latency)
  }

  /** How long an attempt took; unknown for one whose start is not known. */
  function Took(startedAt: int, now: int): int {
    if startedAt == 0 then 0 else now - startedAt
  }

  /** A mark that is applied: the server is connecting since the attempt started. */
  lemma MarkRecordsAttempt(w: World, e: Event)
    requires Enabled(w, e) && e.Mark? && IsCurrent(w, e)
    ensures var task := w.tasks[e.t];
            var before, after := StatusOf(w.shared, task.name), StatusOf(Step(w, e).shared, task.name);
            && after.state == Connecting && after.reason == NoReason && after.error == "" && after.toolCount == 0
            && Records(before, after, task.startedAt, 0, 0, 0) && after.lastError == before.lastError
  {}

  /** A success that is applied: the time is that of a success, and nothing is said of failures. */
  lemma SuccessRecordsSuccess(w: World, e: Event)
    requires Enabled(w, e) && e.Settle? && e.outcome.Success? && IsCurrent(w, e)
    ensures var task := w.tasks[e.t];
            var before, after := StatusOf(w.shared, task.name), StatusOf(Step(w, e).shared, task.name);
            && after.state == Connected && after.reason == NoReason && after.error == ""
            && after.toolCount == e.outcome.tools
            && Records(before, after, task.startedAt, e.now, 0, Took(task.startedAt, e.now))
            && after.lastError == before.lastError
  {}

  /** What an applied failure says: its reason and message, also kept as the last error. */
  predicate RecordsFailure(before: Status, after: Status, reason: Reason, message: string) {
    && after.state == Failed && after.reason == reason && after.error == message && after.toolCount == 0
    && after.lastError == if message == "" then before.lastError else message
  }

  /** A failure that is applied: the time is that of a failure. */
  lemma FailureRecordsFailure(w: World, e: Event)
    requires Enabled(w, e) && e.Settle? && e.outcome.Failure? && IsCurrent(w, e)
    ensures var task := w.tasks[e.t];
            var before, after := StatusOf(w.shared, task.name), StatusOf(Step(w, e).shared, task.name);
            && RecordsFailure(before, after, e.outcome.reason, e.outcome.message)
            && Records(before, after, task.startedAt, 0, e.now, Took(task.startedAt, e.now))
  {}

  /** A forced timeout that is applied: a failure of a server that does not respond. */
  lemma DeadlineRecordsTimeout(w: World, e: Event)
    requires Enabled(w, e) && e.Deadline? && IsCurrent(w, e)
    ensures var task := w.tasks[e.t];
            var before, after := StatusOf(w.shared, task.name), StatusOf(Step(w, e).shared, task.name);
            && RecordsFailure(before, after, NotResponding, "connect timed out")
            && Records(before, after, task.startedAt, 0, e.now, Took(task.startedAt, e.now))
  {}

  /** A client's death that is applied: a failure that belongs to no attempt. */
  lemma DeathRecordsFailure(w: World, e: Event)
    requires Enabled(w, e) && e.Die? && IsCurrent(w, e)
    ensures var task := w.tasks[e.t];
            var before, after := StatusOf(w.shared, task.name), StatusOf(Step(w, e).shared, task.name);
            RecordsFailure(before, after, e.reason, e.message) && Records(before, after, 0, 0, e.now, 0)
  {}

  /** Removing forgets the status; disabling keeps its times and last error. */
  lemma StoppingRecords(w: World, e: Event)
    requires Enabled(w, e) && (e.FinishRemove? || e.FinishDisable?)
    ensures var name := w.tasks[e.t].name;
            var before, after := StatusOf(w.shared, name), StatusOf(Step(w, e).shared, name);
            if e.FinishRemove? then name !in Step(w, e).shared.statuses
            else
              && after.state == Disabled && after.reason == NoReason && after.error == "" && after.toolCount == 0
              && Records(before, after, 0, 0, 0, 0) && after.lastError == before.lastError
  {}

  /** No step changes the status of another server, and no other kind of step changes any status. */
  lemma OtherStatusesStay(w: World, e: Event, name: string)
    requires Enabled(w, e)
    requires IsAttemptStep(e) || e.FinishRemove? || e.FinishDisable? ==> w.tasks[e.t].name != name
    ensures StatusOf(Step(w, e).shared, name) == StatusOf(w.shared, name)
  {}

  /** The steps that arm a retry: an applied forced timeout, an applied client death, and an applied failure
      of any attempt but an `Add`, whose caller gets the error. */
  predicate ArmsRetry(w: World, e: Event)
    requires Enabled(w, e)
  {
    (e.Deadline? || e.Die? || (e.Settle? && e.outcome.Failure? && !w.tasks[e.t].Adding?)) && IsCurrent(w, e)
  }

  /** A retry is armed by exactly those steps, for the server and generation that failed. */
  lemma RetryIsArmedExactlyAfterFailure(w: World, e: Event)
    requires Enabled(w, e)
    ensures ArmsRetry(w, e) ==>
              e.u in Step(w, e).tasks && Step(w, e).tasks[e.u] == Timer(w.tasks[e.t].name, w.tasks[e.t].gen)
    ensures forall u | u in Step(w, e).tasks && Step(w, e).tasks[u].Timer? ::
              (u in w.tasks && w.tasks[u] == Step(w, e).tasks[u]) || (ArmsRetry(w, e) && u == e.u)
  {}

  /** A retry passes its check exactly when its generation is current and the server has failed; passing it
      or not changes no status, and a retry that does not pass is over. */
  lemma RetryPassesExactlyWhileFailed(w: World, t: nat)
    requires Enabled(w, Fire(t))
    ensures Step(w, Fire(t)).shared == w.shared
    ensures var timer, next := w.tasks[t], Step(w, Fire(t)).tasks;
            if Generation(w.shared, timer.name) == timer.gen && StatusOf(w.shared, timer.name).state == Failed
            then t in next && next[t] == Firing(timer.name)
            else t !in next
  {}

  // ---- telemetry ----------------------------------------------------------

  function Merged(applied: seq<Status>): Status {
    if applied == [] then ZERO
    else MergeStatus(Merged(applied[..|applied| - 1]), applied[|applied| - 1])
  }

  /** The newest value that is set, or the unset value. */
  function LatestNumber(values: seq<int>): int {
    if values == [] then 0
    else
      var last := values[|values| - 1];
      if last != 0 then last else LatestNumber(values[..|values| - 1])
  }

  function LatestText(values: seq<string>): string {
    if values == [] then ""
    else
      var last := values[|values| - 1];
      if last != "" then last else LatestText(values[..|values| - 1])
  }

  function Column<T>(applied: seq<Status>, field: Status -> T): (column: seq<T>)
    ensures |column| == |applied| && forall i | 0 <= i < |applied| :: column[i] == field(applied[i])
  {
    seq(|applied|, i requires 0 <= i < |applied| => field(applied[i]))
  }

  lemma ColumnPrefix<T>(applied: seq<Status>, field: Status -> T)
    requires applied != []
    ensures Column(applied, field)[..|applied| - 1] == Column(applied[..|applied| - 1], field)
  {}

  ghost predicate IsLatest(st: Status, applied: seq<Status>) {
    && st.attemptAt == LatestNumber(Column(applied, (s: Status) => s.attemptAt))
    && st.successAt == LatestNumber(Column(applied, (s: Status) => s.successAt))
    && st.failureAt == LatestNumber(Column(applied, (s: Status) => s.failureAt))
    && st.latency == LatestNumber(Column(applied, (s: Status) => s.latency))
    && st.lastError == LatestText(Column(applied, (s: Status) => s.lastError))
    && (applied != [] ==>
          var last := applied[|applied| - 1];
          && st.state == last.state && st.reason == last.reason
          && st.error == last.error && st.toolCount == last.toolCount)
  }

  lemma {:induction false} MergedIsLatest(applied: seq<Status>)
    ensures IsLatest(Merged(applied), applied)
    decreases |applied|
  {
    if applied != [] {
      MergedIsLatest(applied[..|applied| - 1]);
      ColumnPrefix(applied, (s: Status) => s.attemptAt);
      ColumnPrefix(applied, (s: Status) => s.successAt);
      ColumnPrefix(applied, (s: Status) => s.failureAt);
      ColumnPrefix(applied, (s: Status) => s.latency);
      ColumnPrefix(applied, (s: Status) => s.lastError);
    }
  }

  lemma MergedSnoc(applied: seq<Status>, st: Status)
    ensures Merged(applied + [st]) == MergeStatus(Merged(applied), st)
  {
    assert (applied + [st])[..|applied|] == applied;
  }

  ghost predicate Recorded(s: Shared) {
    forall name {:trigger StatusOf(s, name)} {:trigger AppliedTo(s, name)} ::
      StatusOf(s, name) == Merged(AppliedTo(s, name))
  }

  lemma WrittenRecords(s: Shared, name: string, st: Status)
    requires Recorded(s)
    ensures Recorded(Written(s, name, st))
  {
    MergedSnoc(AppliedTo(s, name), st);
    var next := Written(s, name, st);
    forall other
      ensures StatusOf(next, other) == Merged(AppliedTo(next, other))
    {
      assert other != name ==> StatusOf(next, other) == StatusOf(s, other);
    }
  }

  lemma StepRecords(w: World, e: Event)
    requires Recorded(w.shared) && Enabled(w, e)
    ensures Recorded(Step(w, e).shared)
  {
    var s, next := w.shared, Step(w, e).shared;
    if next.statuses == s.statuses && next.applied == s.applied {
      SameRecords(s, next);
    } else if e.FinishRemove? {
      ForgottenRecords(s, w.tasks[e.t].name);
    } else {
      var name := w.tasks[e.t].name;
      match e
      case Mark(t) => WrittenRecords(s, name, ConnectingStatus(w.tasks[t].startedAt));
      case Settle(t, _, now, outcome) => WrittenRecords(s, name, StatusFor(w.tasks[t].startedAt, now, outcome));
      case Deadline(t, _, now) =>
        WrittenRecords(s, name, FailedStatus(w.tasks[t].startedAt, now, NotResponding, TIMED_OUT));
      case Die(_, _, now, reason, message) => WrittenRecords(s, name, FailedStatus(0, now, reason, message));
      case FinishDisable(_) => WrittenRecords(s, name, DISABLED);
      case _ =>
    }
  }

  lemma SameRecords(s: Shared, next: Shared)
    requires Recorded(s) && next.statuses == s.statuses && next.applied == s.applied
    ensures Recorded(next)
  {
    forall name
      ensures StatusOf(next, name) == Merged(AppliedTo(next, name))
    {
      assert StatusOf(next, name) == StatusOf(s, name);
    }
  }

  lemma ForgottenRecords(s: Shared, name: string)
    requires Recorded(s)
    ensures Recorded(Forgotten(s, name))
  {
    var next := Forgotten(s, name);
    forall other
      ensures StatusOf(next, other) == Merged(AppliedTo(next, other))
    {
      assert other != name ==> StatusOf(next, other) == StatusOf(s, other);
    }
  }

  lemma {:induction false} RunRecords(from: World, events: seq<Event>, to: World)
    requires Recorded(from.shared) && Leads(from, events, to)
    ensures Recorded(to.shared)
    decreases |events|
  {
    if events != [] {
      StepRecords(from, events[0]);
      RunRecords(Step(from, events[0]), events[1..], to);
    }
  }

  /** Each telemetry field is the newest value set for it since the server was last removed, and the
      rest of the status is that of the newest write. */
  lemma TelemetryIsLatest(w: World, name: string)
    requires Reachable(w)
    ensures IsLatest(StatusOf(w.shared, name), AppliedTo(w.shared, name))
  {
    var events :| Leads(START, events, w);
    RunRecords(START, events, w);
    MergedIsLatest(AppliedTo(w.shared, name));
    assert StatusOf(w.shared, name) == Merged(AppliedTo(w.shared, name));
  }

  // ---- connecting is always going to end ----------------------------------

  /** Work that will write the server's status, or has the right to, at its generation. */
  predicate Unsettled(task: Task) {
    task.Marking? || task.Racing? || task.Adding? || task.Removing? || task.Disabling?
  }

  predicate IsOwner(w: World, t: nat, name: string, gen: nat) {
    t in w.tasks && Unsettled(w.tasks[t]) && w.tasks[t].name == name && w.tasks[t].gen == gen
  }

  ghost predicate Owned(w: World, name: string, gen: nat) {
    (exists t :: IsOwner(w, t, name, gen)) || (name, gen) in w.closed
  }

  ghost predicate GenerationsBound(w: World) {
    && (forall t | t in w.tasks && !w.tasks[t].Firing? ::
          1 <= w.tasks[t].gen <= Generation(w.shared, w.tasks[t].name))
    && forall name | name in w.shared.written :: 1 <= w.shared.written[name] <= Generation(w.shared, name)
  }

  ghost predicate ConnectingIsOwned(w: World) {
    forall name {:trigger StatusOf(w.shared, name)} ::
      StatusOf(w.shared, name).state == Connecting ==> Owned(w, name, Generation(w.shared, name))
  }

  ghost predicate OneOwner(w: World) {
    forall t, u, name, gen | IsOwner(w, t, name, gen) && IsOwner(w, u, name, gen) :: t == u
  }

  predicate IsRacing(w: World, t: nat, name: string, gen: nat) {
    IsOwner(w, t, name, gen) && w.tasks[t].Racing?
  }

  predicate ConnectingNow(s: Shared, name: string) {
    StatusOf(s, name).state == Connecting && WrittenNow(s, name)
  }

  ghost predicate ConnectingIsRaced(w: World) {
    forall name {:trigger ConnectingNow(w.shared, name)} ::
      ConnectingNow(w.shared, name) ==> exists t :: IsRacing(w, t, name, Generation(w.shared, name))
  }

  ghost predicate Inv(w: World) {
    GenerationsBound(w) && ConnectingIsOwned(w) && OneOwner(w) && ConnectingIsRaced(w)
  }

  /** The task that a step leaves under `t` is one it found there, one it opened at the next generation, a
      retry that passed its check, or one that goes on at its generation. */
  lemma TaskComesFrom(w: World, e: Event, t: nat)
    requires Enabled(w, e) && t in Step(w, e).tasks
    ensures var task := Step(w, e).tasks[t];
            || (t in w.tasks && w.tasks[t] == task)
            || (IsCall(e) && !task.Firing? && task.name == e.name && task.gen == NextGeneration(w, e.name))
            || (e.Reconnect? && w.tasks[e.t] == Firing(task.name) && task.Marking?
                && task.gen == NextGeneration(w, task.name))
            || (e.Fire? && task == Firing(w.tasks[e.t].name) && MayRetry(w.shared, task.name, w.tasks[e.t].gen))
            || (!IsCall(e) && !e.Close? && !w.tasks[e.t].Firing? && !task.Firing?
                && task.name == w.tasks[e.t].name && task.gen == w.tasks[e.t].gen
                && !w.tasks[e.t].Removing? && !w.tasks[e.t].Disabling?)
  {}

  lemma TaskBoundStays(w: World, e: Event, t: nat)
    requires GenerationsBound(w) && Enabled(w, e) && t in Step(w, e).tasks && !Step(w, e).tasks[t].Firing?
    ensures 1 <= Step(w, e).tasks[t].gen <= Generation(Step(w, e).shared, Step(w, e).tasks[t].name)
  {
    GenerationsOnlyGrow(w, e, Step(w, e).tasks[t].name);
    TaskComesFrom(w, e, t);
  }

  lemma WrittenBoundStays(w: World, e: Event, name: string)
    requires GenerationsBound(w) && Enabled(w, e) && name in Step(w, e).shared.written
    ensures 1 <= Step(w, e).shared.written[name] <= Generation(Step(w, e).shared, name)
  {
    GenerationsOnlyGrow(w, e, name);
  }

  lemma BoundStays(w: World, e: Event)
    requires GenerationsBound(w) && Enabled(w, e)
    ensures GenerationsBound(Step(w, e))
  {
    var next := Step(w, e);
    forall t | t in next.tasks && !next.tasks[t].Firing?
      ensures 1 <= next.tasks[t].gen <= Generation(next.shared, next.tasks[t].name)
    {
      TaskBoundStays(w, e, t);
    }
    forall name | name in next.shared.written
      ensures 1 <= next.shared.written[name] <= Generation(next.shared, name)
    {
      WrittenBoundStays(w, e, name);
    }
  }

  /** A step opens a task at a generation of its own, or leaves tasks where they are. */
  lemma OwnersComeFrom(w: World, e: Event, t: nat, name: string, gen: nat)
    requires Enabled(w, e) && IsOwner(Step(w, e), t, name, gen)
    ensures || IsOwner(w, t, name, gen)
            || (gen == Generation(w.shared, name) + 1 && ((e.Reconnect? && t == e.t) || (IsCall(e) && t == e.u)))
  {}

  lemma OneOwnerStays(w: World, e: Event)
    requires GenerationsBound(w) && OneOwner(w) && Enabled(w, e)
    ensures OneOwner(Step(w, e))
  {
    var next := Step(w, e);
    forall t: nat, u: nat, name, gen: nat | IsOwner(next, t, name, gen) && IsOwner(next, u, name, gen)
      ensures t == u
    {
      OwnersComeFrom(w, e, t, name, gen);
      OwnersComeFrom(w, e, u, name, gen);
      assert IsOwner(w, t, name, gen) ==> gen <= Generation(w.shared, name);
      assert IsOwner(w, u, name, gen) ==> gen <= Generation(w.shared, name);
    }
  }

  /** The owner stays unless the step settles it. */
  lemma OwnerStays(w: World, e: Event, t: nat, name: string, gen: nat)
    requires Enabled(w, e) && IsOwner(w, t, name, gen)
    requires e.Settle? || e.Deadline? || e.FinishRemove? || e.FinishDisable? ==> e.t != t
    ensures IsOwner(Step(w, e), t, name, gen)
  {}

  /** Settling an attempt of the current generation, or finishing a removal or disabling, leaves a
      status that is not `connecting`. */
  lemma SettlingEndsConnecting(w: World, e: Event, name: string)
    requires Enabled(w, e) && (e.Settle? || e.Deadline? || e.FinishRemove? || e.FinishDisable?)
    requires IsOwner(w, e.t, name, Generation(w.shared, name))
    ensures StatusOf(Step(w, e).shared, name).state != Connecting
  {}

  /** Only a mark makes a status `connecting`, and only at its own, current generation. */
  lemma ConnectingComesFrom(w: World, e: Event, name: string)
    requires Enabled(w, e) && StatusOf(Step(w, e).shared, name).state == Connecting
    ensures || StatusOf(w.shared, name).state == Connecting
            || (e.Mark? && IsOwner(Step(w, e), e.t, name, Generation(w.shared, name)))
  {}

  lemma GenerationComesFrom(w: World, e: Event, name: string)
    requires Enabled(w, e)
    ensures || Generation(Step(w, e).shared, name) == Generation(w.shared, name)
            || Owned(Step(w, e), name, Generation(Step(w, e).shared, name))
  {
    var next := Step(w, e);
    var gen := Generation(w.shared, name) + 1;
    match e
    case CallConnect(u, n, _) => assert n == name ==> IsOwner(next, u, name, gen);
    case CallAdd(u, n, _) => assert n == name ==> IsOwner(next, u, name, gen);
    case CallRemove(u, n) => assert n == name ==> IsOwner(next, u, name, gen);
    case CallDisable(u, n) => assert n == name ==> IsOwner(next, u, name, gen);
    case Reconnect(t, _) => assert w.tasks[t].name == name ==> IsOwner(next, t, name, gen);
    case _ =>
  }

  lemma ConnectingStaysOwned(w: World, e: Event, name: string)
    requires ConnectingIsOwned(w) && Enabled(w, e) && StatusOf(Step(w, e).shared, name).state == Connecting
    ensures Owned(Step(w, e), name, Generation(Step(w, e).shared, name))
  {
    GenerationComesFrom(w, e, name);
    ConnectingComesFrom(w, e, name);
    var gen := Generation(w.shared, name);
    if StatusOf(w.shared, name).state == Connecting && (name, gen) !in w.closed {
      var t :| IsOwner(w, t, name, gen);
      if (e.Settle? || e.Deadline? || e.FinishRemove? || e.FinishDisable?) && e.t == t {
        SettlingEndsConnecting(w, e, name);
      } else {
        OwnerStays(w, e, t, name, gen);
      }
    }
  }

  /** Only a mark writes a `connecting` status, so no other step makes one current. */
  lemma ConnectingNowComesFrom(w: World, e: Event, name: string)
    requires GenerationsBound(w) && Enabled(w, e) && ConnectingNow(Step(w, e).shared, name)
    ensures || (e.Mark? && IsRacing(Step(w, e), e.t, name, Generation(Step(w, e).shared, name)))
            || (ConnectingNow(w.shared, name) && Generation(Step(w, e).shared, name) == Generation(w.shared, name))
  {
    GenerationsOnlyGrow(w, e, name);
  }

  /** A race of the current generation goes on unless the step settles it, which ends `connecting`. */
  lemma RaceGoesOn(w: World, e: Event, t: nat, name: string)
    requires Enabled(w, e) && IsRacing(w, t, name, Generation(w.shared, name))
    requires ConnectingNow(Step(w, e).shared, name)
    ensures IsRacing(Step(w, e), t, name, Generation(w.shared, name))
  {}

  lemma ConnectingStaysRaced(w: World, e: Event, name: string)
    requires GenerationsBound(w) && ConnectingIsRaced(w) && Enabled(w, e) && ConnectingNow(Step(w, e).shared, name)
    ensures exists t :: IsRacing(Step(w, e), t, name, Generation(Step(w, e).shared, name))
  {
    ConnectingNowComesFrom(w, e, name);
    if ConnectingNow(w.shared, name) && Generation(Step(w, e).shared, name) == Generation(w.shared, name) {
      var t :| IsRacing(w, t, name, Generation(w.shared, name));
      RaceGoesOn(w, e, t, name);
    }
  }

  lemma StepKeeps(w: World, e: Event)
    requires Inv(w) && Enabled(w, e)
    ensures Inv(Step(w, e))
  {
    BoundStays(w, e);
    OneOwnerStays(w, e);
    var next := Step(w, e);
    forall name | StatusOf(next.shared, name).state == Connecting
      ensures Owned(next, name, Generation(next.shared, name))
    {
      ConnectingStaysOwned(w, e, name);
    }
    forall name | ConnectingNow(next.shared, name)
      ensures exists t :: IsRacing(next, t, name, Generation(next.shared, name))
    {
      ConnectingStaysRaced(w, e, name);
    }
  }

  lemma {:induction false} RunKeeps(from: World, events: seq<Event>, to: World)
    requires Inv(from) && Leads(from, events, to)
    ensures Inv(to)
    decreases |events|
  {
    if events != [] {
      StepKeeps(from, events[0]);
      RunKeeps(Step(from, events[0]), events[1..], to);
    }
  }

  lemma ReachableIsGood(w: World)
    requires Reachable(w)
    ensures Inv(w)
  {
    var events :| Leads(START, events, w);
    RunKeeps(START, events, w);
  }

  /** A `connecting` status written at the current generation belongs to exactly one attempt of that
      generation, still racing. */
  lemma ConnectingHasOneAttempt(w: World, name: string)
    requires Reachable(w) && ConnectingNow(w.shared, name)
    ensures exists t :: IsRacing(w, t, name, Generation(w.shared, name))
    ensures forall t, u | IsRacing(w, t, name, Generation(w.shared, name))
                       && IsRacing(w, u, name, Generation(w.shared, name)) :: t == u
  {
    ReachableIsGood(w);
  }

  /** A `connecting` status of whatever generation is never left behind: a unique operation of the
      server's current generation is still to settle, unless the manager was closed at it. */
  lemma ConnectingWillSettle(w: World, name: string)
    requires Reachable(w) && StatusOf(w.shared, name).state == Connecting
    ensures Owned(w, name, Generation(w.shared, name))
    ensures forall t, u | IsOwner(w, t, name, Generation(w.shared, name))
                       && IsOwner(w, u, name, Generation(w.shared, name)) :: t == u
  {
    ReachableIsGood(w);
  }

  lemma LeadsOne(w: World, e: Event)
    requires Enabled(w, e)
    ensures Leads(w, [e], Step(w, e))
  {
    assert [e][1..] == [];
  }

  lemma LeadsTwo(w: World, e: Event, f: Event)
    requires Enabled(w, e) && Enabled(Step(w, e), f)
    ensures Leads(w, [e, f], Step(Step(w, e), f))
  {
    LeadsOne(Step(w, e), f);
    assert [e, f][1..] == [f];
  }

  lemma Play(w: World, e: Event) returns (next: World)
    requires Reachable(w) && Enabled(w, e)
    ensures next == Step(w, e) && Reachable(next)
  {
    next := Step(w, e);
    var events :| Leads(START, events, w);
    Extend(START, events, w, e);
  }

  lemma {:induction false} Extend(from: World, events: seq<Event>, to: World, e: Event)
    requires Leads(from, events, to) && Enabled(to, e)
    ensures Leads(from, events + [e], Step(to, e))
    decreases |events|
  {
    assert ([] + [e])[1..] == [];
    if events != [] {
      assert (events + [e])[1..] == events[1..] + [e];
      Extend(Step(from, events[0]), events[1..], to, e);
    }
  }

  lemma FreshTask(tasks: map<nat, Task>) returns (u: nat)
    ensures u !in tasks
  {
    u := FreshNumber(tasks.Keys);
  }

  lemma {:induction false} FreshNumber(ids: set<nat>) returns (u: nat)
    ensures u !in ids && forall id | id in ids :: id < u
    decreases |ids|
  {
    if ids == {} {
      u := 0;
    } else {
      var id :| id in ids;
      var m := FreshNumber(ids - {id});
      assert forall x | x in ids :: x == id || x in ids - {id};
      u := if id < m then m else id + 1;
    }
  }

  /** A step that the manager takes by itself: neither a lifecycle call nor anything that an attempt or
      its client does. */
  predicate IsOwnStep(e: Event) {
    !IsCall(e) && !e.Settle? && !e.StoreClient? && !e.Die?
  }

  ghost predicate OwnSteps(events: seq<Event>) {
    forall i | 0 <= i < |events| :: IsOwnStep(events[i])
  }

  /** The manager alone can end the status, whatever the attempts do. */
  ghost predicate CanEndAlone(w: World, name: string) {
    exists events, to :: Leads(w, events, to) && OwnSteps(events) && StatusOf(to.shared, name).state != Connecting
  }

  /** A task from which the manager alone goes on to another status: an attempt of the current generation
      that its outer deadline bounds, a removal, a disabling, or a retry past its check. */
  predicate IsBounded(w: World, t: nat, name: string) {
    && t in w.tasks && w.tasks[t].name == name
    && var task := w.tasks[t];
       || task.Firing? || task.Removing? || task.Disabling?
       || ((task.Marking? || task.Racing?) && task.gen == Generation(w.shared, name))
  }

  lemma DeadlineEnds(w: World, t: nat, name: string)
    requires IsRacing(w, t, name, Generation(w.shared, name))
    ensures CanEndAlone(w, name)
  {
    var u := FreshTask(w.tasks);
    LeadsOne(w, Deadline(t, u, 1));
    SettlingEndsConnecting(w, Deadline(t, u, 1), name);
  }

  lemma FinishEnds(w: World, t: nat, name: string)
    requires t in w.tasks && w.tasks[t].name == name && (w.tasks[t].Removing? || w.tasks[t].Disabling?)
    ensures CanEndAlone(w, name)
  {
    var e := if w.tasks[t].Removing? then FinishRemove(t) else FinishDisable(t);
    LeadsOne(w, e);
  }

  lemma StepFirst(w: World, e: Event, name: string)
    requires Enabled(w, e) && IsOwnStep(e) && CanEndAlone(Step(w, e), name)
    ensures CanEndAlone(w, name)
  {
    var events, to :| && Leads(Step(w, e), events, to) && OwnSteps(events)
                      && StatusOf(to.shared, name).state != Connecting;
    assert ([e] + events)[1..] == events;
    assert Leads(w, [e] + events, to);
  }

  lemma BoundedEnds(w: World, t: nat, name: string)
    requires IsBounded(w, t, name)
    ensures CanEndAlone(w, name)
  {
    var task := w.tasks[t];
    if task.Firing? {
      ConnectsOrFinishes(Step(w, Reconnect(t, 1)), t, name);
      StepFirst(w, Reconnect(t, 1), name);
    } else {
      ConnectsOrFinishes(w, t, name);
    }
  }

  lemma ConnectsOrFinishes(w: World, t: nat, name: string)
    requires IsBounded(w, t, name) && !w.tasks[t].Firing?
    ensures CanEndAlone(w, name)
  {
    var task := w.tasks[t];
    if task.Marking? {
      DeadlineEnds(Step(w, Mark(t)), t, name);
      StepFirst(w, Mark(t), name);
    } else if task.Racing? {
      DeadlineEnds(w, t, name);
    } else {
      FinishEnds(w, t, name);
    }
  }

  ghost predicate Hangs(w: World, name: string) {
    GenerationsBound(w) && StatusOf(w.shared, name).state == Connecting && forall t :: !IsBounded(w, t, name)
  }

  lemma BoundedComesFrom(w: World, e: Event, t: nat, name: string)
    requires Hangs(w, name) && Enabled(w, e) && IsOwnStep(e)
    ensures !IsBounded(Step(w, e), t, name)
  {
    assert !IsBounded(w, t, name);
  }

  lemma HangsOn(w: World, e: Event, name: string)
    requires Hangs(w, name) && Enabled(w, e) && IsOwnStep(e)
    ensures Hangs(Step(w, e), name)
  {
    BoundStays(w, e);
    assert e.Close? || !IsBounded(w, e.t, name);
    forall t: nat
      ensures !IsBounded(Step(w, e), t, name)
    {
      BoundedComesFrom(w, e, t, name);
    }
  }

  lemma {:induction false} HangsAlong(from: World, events: seq<Event>, to: World, name: string)
    requires Hangs(from, name) && Leads(from, events, to) && OwnSteps(events)
    ensures Hangs(to, name)
    decreases |events|
  {
    if events != [] {
      assert IsOwnStep(events[0]);
      HangsOn(from, events[0], name);
      assert forall i | 0 <= i < |events[1..]| :: events[1..][i] == events[i + 1];
      HangsAlong(Step(from, events[0]), events[1..], to, name);
    }
  }

  /** A `connecting` status ends whatever the attempts do exactly when a bounded task of the server is
      left; if none is, the manager was closed at its generation, or an `Add` owns it. */
  lemma ConnectingEndsExactlyWithBoundedTask(w: World, name: string)
    requires Reachable(w) && StatusOf(w.shared, name).state == Connecting
    ensures CanEndAlone(w, name) <==> exists t :: IsBounded(w, t, name)
    ensures var gen := Generation(w.shared, name);
            || CanEndAlone(w, name) || (name, gen) in w.closed
            || exists t :: IsOwner(w, t, name, gen) && w.tasks[t].Adding?
  {
    ReachableIsGood(w);
    if t :| IsBounded(w, t, name) {
      BoundedEnds(w, t, name);
    } else {
      forall events, to | Leads(w, events, to) && OwnSteps(events)
        ensures StatusOf(to.shared, name).state == Connecting
      {
        HangsAlong(w, events, to, name);
      }
      ConnectingWillSettle(w, name);
      assert forall t, gen | IsOwner(w, t, name, gen) :: !IsBounded(w, t, name);
    }
  }

  // ---- a result after the forced timeout ----------------------------------

  /** A lifecycle call, a retry that reconnects, or closing starts a new generation. */
  predicate Supersedes(w: World, e: Event, name: string)
    requires Enabled(w, e)
  {
    || (IsCall(e) && e.name == name)
    || (e.Reconnect? && w.tasks[e.t].name == name)
    || (e.Close? && name in w.shared.generations)
  }

  lemma GenerationMoves(w: World, e: Event, name: string)
    requires Enabled(w, e)
    ensures Generation(Step(w, e).shared, name) == Generation(w.shared, name) + if Supersedes(w, e, name) then 1 else 0
  {}

  ghost predicate Undisturbed(from: World, events: seq<Event>, name: string)
    decreases events
  {
    events == []
    || (Enabled(from, events[0]) && !Supersedes(from, events[0], name)
        && Undisturbed(Step(from, events[0]), events[1..], name))
  }

  lemma {:induction false} UndisturbedKeepsGeneration(from: World, events: seq<Event>, to: World, name: string)
    requires Leads(from, events, to)
    ensures Undisturbed(from, events, name) <==> Generation(to.shared, name) == Generation(from.shared, name)
    decreases |events|
  {
    if events != [] {
      var next := Step(from, events[0]);
      GenerationMoves(from, events[0], name);
      GenerationsGrowAlong(next, events[1..], to, name);
      UndisturbedKeepsGeneration(next, events[1..], to, name);
    }
  }

  /** The owner of a generation is still to settle, or it has settled and the status is not `connecting`. */
  ghost predicate SettledByOwner(w: World, t: nat, name: string, gen: nat) {
    && Generation(w.shared, name) == gen
    && (IsOwner(w, t, name, gen)
        || (StatusOf(w.shared, name).state != Connecting && forall u :: !IsOwner(w, u, name, gen)))
  }

  lemma OwnerSettles(w: World, e: Event, t: nat, name: string)
    requires Inv(w) && Enabled(w, e) && IsOwner(w, t, name, Generation(w.shared, name))
    requires (e.Settle? || e.Deadline? || e.FinishRemove? || e.FinishDisable?) && e.t == t
    ensures SettledByOwner(Step(w, e), t, name, Generation(w.shared, name))
  {
    SettlingEndsConnecting(w, e, name);
    var gen := Generation(w.shared, name);
    forall u: nat
      ensures !IsOwner(Step(w, e), u, name, gen)
    {
      if IsOwner(Step(w, e), u, name, gen) {
        OwnersComeFrom(w, e, u, name, gen);
      }
    }
  }

  lemma NoOwnerComes(w: World, e: Event, t: nat, name: string)
    requires Enabled(w, e) && !Supersedes(w, e, name)
    requires SettledByOwner(w, t, name, Generation(w.shared, name)) && !IsOwner(w, t, name, Generation(w.shared, name))
    ensures SettledByOwner(Step(w, e), t, name, Generation(w.shared, name))
  {
    var gen := Generation(w.shared, name);
    GenerationMoves(w, e, name);
    forall u: nat
      ensures !IsOwner(Step(w, e), u, name, gen)
    {
      if IsOwner(Step(w, e), u, name, gen) {
        OwnersComeFrom(w, e, u, name, gen);
      }
    }
    if StatusOf(Step(w, e).shared, name).state == Connecting {
      ConnectingComesFrom(w, e, name);
    }
  }

  lemma {:induction false} OwnerSettlesAlong(from: World, events: seq<Event>, to: World, t: nat, name: string, gen: nat)
    requires Inv(from) && SettledByOwner(from, t, name, gen) && Leads(from, events, to)
    requires Undisturbed(from, events, name)
    ensures SettledByOwner(to, t, name, gen)
    decreases |events|
  {
    if events != [] {
      var e, next := events[0], Step(from, events[0]);
      StepKeeps(from, e);
      GenerationMoves(from, e, name);
      if !IsOwner(from, t, name, gen) {
        NoOwnerComes(from, e, t, name);
      } else if (e.Settle? || e.Deadline? || e.FinishRemove? || e.FinishDisable?) && e.t == t {
        OwnerSettles(from, e, t, name);
      } else {
        OwnerStays(from, e, t, name, gen);
      }
      OwnerSettlesAlong(next, events[1..], to, t, name, gen);
    }
  }

  /** Along every run at one generation: once its owner is no longer unsettled (its result came, its outer
      deadline passed, or the removal or disabling finished), the status is not `connecting`. */
  lemma ConnectingEndsWithItsOwner(from: World, events: seq<Event>, to: World, t: nat, name: string)
    requires Reachable(from) && IsOwner(from, t, name, Generation(from.shared, name))
    requires Leads(from, events, to) && Undisturbed(from, events, name)
    requires !IsOwner(to, t, name, Generation(from.shared, name))
    ensures StatusOf(to.shared, name).state != Connecting
  {
    ReachableIsGood(from);
    OwnerSettlesAlong(from, events, to, t, name, Generation(from.shared, name));
  }

  /** A step that an attempt itself takes, other than storing its client. */
  predicate TakenBy(e: Event, t: nat) {
    !IsCall(e) && !e.Close? && !e.StoreClient? && e.t == t
  }

  lemma {:induction false} LateStaysLate(from: World, events: seq<Event>, to: World, t: nat)
    requires Leads(from, events, to) && t in from.tasks && from.tasks[t].Late?
    requires forall i | 0 <= i < |events| :: !TakenBy(events[i], t)
    ensures t in to.tasks && to.tasks[t] == from.tasks[t]
    decreases |events|
  {
    if events != [] {
      assert !TakenBy(events[0], t);
      assert forall i | 0 <= i < |events[1..]| :: events[1..][i] == events[i + 1];
      LateStaysLate(Step(from, events[0]), events[1..], to, t);
    }
  }

  /** Along every run after an applied forced timeout, the attempt's late result is applied if and only
      if nothing superseded its generation in between; otherwise it changes nothing. */
  lemma LateResultAppliedExactlyWhileCurrent(w: World, t: nat, u: nat, now: int, events: seq<Event>, to: World,
                                             v: nat, later: int, outcome: ConnectOutcome)
    requires Enabled(w, Deadline(t, u, now)) && w.tasks[t].gen == Generation(w.shared, w.tasks[t].name)
    requires Leads(Step(w, Deadline(t, u, now)), events, to) && v !in to.tasks
    requires forall i | 0 <= i < |events| :: !TakenBy(events[i], t)
    ensures Enabled(to, Settle(t, v, later, outcome))
    ensures var name, next := w.tasks[t].name, Step(to, Settle(t, v, later, outcome)).shared;
            var current := Undisturbed(Step(w, Deadline(t, u, now)), events, name);
            && next == (if current then Written(to.shared, name, StatusFor(w.tasks[t].startedAt, later, outcome))
                        else to.shared)
            && (next != to.shared <==> current)
  {
    var timedOut, name := Step(w, Deadline(t, u, now)), w.tasks[t].name;
    LateStaysLate(timedOut, events, to, t);
    UndisturbedKeepsGeneration(timedOut, events, to, name);
    var st := StatusFor(w.tasks[t].startedAt, later, outcome);
    assert |AppliedTo(Written(to.shared, name, st), name)| == |AppliedTo(to.shared, name)| + 1;
  }

  // ---- stopping a server --------------------------------------------------

  /** Removing or disabling the server, or closing the manager. */
  predicate Stops(e: Event, name: string) {
    e.Close? || ((e.CallRemove? || e.CallDisable?) && e.name == name)
  }

  predicate Stopping(task: Task) {
    task.Removing? || task.Disabling?
  }

  predicate RetryPastCheck(w: World, name: string, t: nat) {
    t in w.tasks && w.tasks[t] == Firing(name)
  }

  ghost predicate NoCalls(events: seq<Event>, name: string) {
    forall i | 0 <= i < |events| :: IsCall(events[i]) ==> events[i].name != name
  }

  /** Some run without a lifecycle call on the server marks it `connecting` at its current generation. */
  ghost predicate MayConnect(w: World, name: string) {
    exists events, to :: Leads(w, events, to) && NoCalls(events, name) && ConnectingNow(to.shared, name)
  }

  /** A task of the server is superseded, or stops the server. */
  predicate IsSuperseded(w: World, t: nat, name: string) {
    t in w.tasks && w.tasks[t].name == name ==>
      !w.tasks[t].Firing? && (Stopping(w.tasks[t]) || w.tasks[t].gen < Generation(w.shared, name))
  }

  ghost predicate Stopped(w: World, name: string) {
    !ConnectingNow(w.shared, name) && forall t :: IsSuperseded(w, t, name)
  }

  /** Only a removal or disabling under way still changes the status of a stopped server. */
  lemma StoppedStatus(w: World, e: Event, name: string)
    requires Stopped(w, name) && Enabled(w, e) && (IsCall(e) ==> e.name != name)
    ensures var next := StatusOf(Step(w, e).shared, name);
            if (e.FinishRemove? || e.FinishDisable?) && w.tasks[e.t].name == name
            then next.state == (if e.FinishRemove? then NoState else Disabled)
            else next == StatusOf(w.shared, name)
  {
    assert IsCall(e) || e.Close? || IsSuperseded(w, e.t, name);
  }

  lemma SupersededStays(w: World, e: Event, name: string, t: nat)
    requires GenerationsBound(w) && Stopped(w, name) && Enabled(w, e) && (IsCall(e) ==> e.name != name)
    ensures IsSuperseded(Step(w, e), t, name)
  {
    if t in Step(w, e).tasks {
      GenerationsOnlyGrow(w, e, name);
      TaskComesFrom(w, e, t);
      assert IsSuperseded(w, t, name);
      assert IsCall(e) || e.Close? || IsSuperseded(w, e.t, name);
    }
  }

  lemma StaysUnconnected(w: World, e: Event, name: string)
    requires GenerationsBound(w) && Stopped(w, name) && Enabled(w, e) && (IsCall(e) ==> e.name != name)
    ensures !ConnectingNow(Step(w, e).shared, name)
  {
    if e.Mark? {
      assert IsSuperseded(w, e.t, name);
    } else if ConnectingNow(Step(w, e).shared, name) {
      ConnectingNowComesFrom(w, e, name);
    }
  }

  lemma StoppedStays(w: World, e: Event, name: string)
    requires GenerationsBound(w) && Stopped(w, name) && Enabled(w, e) && (IsCall(e) ==> e.name != name)
    ensures Stopped(Step(w, e), name)
  {
    StaysUnconnected(w, e, name);
    forall t: nat
      ensures IsSuperseded(Step(w, e), t, name)
    {
      SupersededStays(w, e, name, t);
    }
  }

  ghost predicate StoppingNow(w: World, name: string) {
    exists t :: t in w.tasks && w.tasks[t].name == name && Stopping(w.tasks[t])
  }

  /** Only a call opens a removal or disabling. */
  lemma StoppingComesFrom(w: World, e: Event, t: nat, name: string)
    requires Enabled(w, e) && (IsCall(e) ==> e.name != name)
    requires t in Step(w, e).tasks && Step(w, e).tasks[t].name == name && Stopping(Step(w, e).tasks[t])
    ensures t in w.tasks && w.tasks[t] == Step(w, e).tasks[t]
  {}

  lemma NothingStartsStopping(w: World, e: Event, name: string)
    requires Enabled(w, e) && (IsCall(e) ==> e.name != name) && !StoppingNow(w, name)
    ensures !StoppingNow(Step(w, e), name)
  {
    if StoppingNow(Step(w, e), name) {
      var t :| t in Step(w, e).tasks && Step(w, e).tasks[t].name == name && Stopping(Step(w, e).tasks[t]);
      StoppingComesFrom(w, e, t, name);
    }
  }

  predicate KeptOrStopped(before: State, after: State) {
    after == before || after == NoState || after == Disabled
  }

  lemma {:induction false} StoppedStaysAlong(from: World, events: seq<Event>, to: World, name: string)
    requires GenerationsBound(from) && Stopped(from, name) && Leads(from, events, to) && NoCalls(events, name)
    ensures Stopped(to, name)
    ensures KeptOrStopped(StatusOf(from.shared, name).state, StatusOf(to.shared, name).state)
    ensures !StoppingNow(from, name) ==> StatusOf(to.shared, name) == StatusOf(from.shared, name)
    decreases |events|
  {
    if events != [] {
      BoundStays(from, events[0]);
      if !StoppingNow(from, name) {
        NothingStartsStopping(from, events[0], name);
      }
      StoppedStatus(from, events[0], name);
      StoppedStays(from, events[0], name);
      assert forall i | 0 <= i < |events[1..]| :: events[1..][i] == events[i + 1];
      StoppedStaysAlong(Step(from, events[0]), events[1..], to, name);
    }
  }

  /** Stopping supersedes everything under way, except a retry that is past its check. */
  lemma StopSupersedes(w: World, e: Event, name: string)
    requires Reachable(w) && Enabled(w, e) && Stops(e, name) && forall t :: !RetryPastCheck(w, name, t)
    ensures GenerationsBound(Step(w, e)) && Stopped(Step(w, e), name)
  {
    ReachableIsGood(w);
    BoundStays(w, e);
    var next := Step(w, e);
    assert !ConnectingNow(next.shared, name);
    forall t: nat
      ensures IsSuperseded(next, t, name)
    {
      assert !RetryPastCheck(w, name, t);
    }
  }

  /** A retry past its check connects, whatever happened since the check. */
  lemma RetryConnects(w: World, name: string, t: nat) returns (to: World)
    requires RetryPastCheck(w, name, t)
    ensures Leads(w, [Reconnect(t, 1), Mark(t)], to) && ConnectingNow(to.shared, name)
  {
    to := Step(Step(w, Reconnect(t, 1)), Mark(t));
    LeadsTwo(w, Reconnect(t, 1), Mark(t));
  }

  lemma RetryMayConnect(w: World, name: string, t: nat)
    requires RetryPastCheck(w, name, t)
    ensures MayConnect(w, name)
  {
    var to := RetryConnects(w, name, t);
  }

  /** A stopped server can connect by itself exactly when a retry had passed its check before the stop. */
  lemma StopHoldsExactlyWithoutRetryPastCheck(w: World, e: Event, name: string)
    requires Reachable(w) && Enabled(w, e) && Stops(e, name)
    ensures MayConnect(Step(w, e), name) <==> exists t :: RetryPastCheck(w, name, t)
  {
    if t :| RetryPastCheck(w, name, t) {
      RetryMayConnect(Step(w, e), name, t);
    } else {
      StopSupersedes(w, e, name);
      forall events, to | Leads(Step(w, e), events, to) && NoCalls(events, name)
        ensures !ConnectingNow(to.shared, name)
      {
        StoppedStaysAlong(Step(w, e), events, to, name);
      }
    }
  }

  /** A disabled server can reconnect by itself exactly when a retry had passed its check when `Disable`
      was called. */
  lemma DisabledStaysExactlyWithoutRetryPastCheck(w: World, u: nat, name: string)
    requires Reachable(w) && u !in w.tasks
    ensures MayConnect(Step(w, CallDisable(u, name)), name) <==> exists t :: RetryPastCheck(w, name, t)
  {
    StopHoldsExactlyWithoutRetryPastCheck(w, CallDisable(u, name), name);
  }

  /** The same for a deleted server. */
  lemma RemovedStaysExactlyWithoutRetryPastCheck(w: World, u: nat, name: string)
    requires Reachable(w) && u !in w.tasks
    ensures MayConnect(Step(w, CallRemove(u, name)), name) <==> exists t :: RetryPastCheck(w, name, t)
  {
    StopHoldsExactlyWithoutRetryPastCheck(w, CallRemove(u, name), name);
  }

  /** The same for every server when the manager is closed. */
  lemma ClosedStaysExactlyWithoutRetryPastCheck(w: World, name: string)
    requires Reachable(w)
    ensures MayConnect(Step(w, Close), name) <==> exists t :: RetryPastCheck(w, name, t)
  {
    StopHoldsExactlyWithoutRetryPastCheck(w, Close, name);
  }

  /** Without such a retry, in every later run without a lifecycle call on the server, its status is what
      it was, disabled or forgotten: it never becomes `connecting`, `connected` or `failed`. */
  lemma NothingConnectsOnceStopped(w: World, e: Event, name: string, events: seq<Event>, to: World)
    requires Reachable(w) && Enabled(w, e) && Stops(e, name) && forall t :: !RetryPastCheck(w, name, t)
    requires Leads(Step(w, e), events, to) && NoCalls(events, name)
    ensures KeptOrStopped(StatusOf(w.shared, name).state, StatusOf(to.shared, name).state)
  {
    StopSupersedes(w, e, name);
    StoppedStaysAlong(Step(w, e), events, to, name);
    assert StatusOf(Step(w, e).shared, name) == StatusOf(w.shared, name);
  }

  // ---- what a removal or disabling leaves ---------------------------------

  predicate UnderWay(w: World, u: nat, task: Task) {
    u in w.tasks && w.tasks[u] == task
  }

  /** What the removal or disabling promises once it returns. */
  predicate HasStopped(s: Shared, task: Task)
    requires Stopping(task)
  {
    if task.Removing? then task.name !in s.statuses else StatusOf(s, task.name).state == Disabled
  }

  /** Only task `u` is stopping the server, and it is under way or has had its effect. */
  ghost predicate TakesEffect(w: World, u: nat, task: Task)
    requires Stopping(task)
  {
    && Stopped(w, task.name)
    && (forall t | t in w.tasks && w.tasks[t].name == task.name && Stopping(w.tasks[t]) ::
          t == u && w.tasks[t] == task)
    && (UnderWay(w, u, task) || HasStopped(w.shared, task))
  }

  /** Only finishing a removal makes or ends a status record's absence for a stopped server. */
  lemma StoppedRecord(w: World, e: Event, name: string)
    requires Stopped(w, name) && Enabled(w, e) && (IsCall(e) ==> e.name != name)
    requires (e.FinishRemove? || e.FinishDisable?) ==> w.tasks[e.t].name != name
    ensures name in Step(w, e).shared.statuses <==> name in w.shared.statuses
  {
    assert IsCall(e) || e.Close? || IsSuperseded(w, e.t, name);
  }

  lemma EffectComes(w: World, e: Event, u: nat, task: Task)
    requires Enabled(w, e) && Stopping(task) && UnderWay(w, u, task)
    ensures UnderWay(Step(w, e), u, task) || HasStopped(Step(w, e).shared, task)
  {}

  lemma EffectLasts(w: World, e: Event, u: nat, task: Task)
    requires Stopping(task) && TakesEffect(w, u, task) && !UnderWay(w, u, task)
    requires Enabled(w, e) && (IsCall(e) ==> e.name != task.name)
    ensures HasStopped(Step(w, e).shared, task)
  {
    StoppedStatus(w, e, task.name);
    StoppedRecord(w, e, task.name);
  }

  lemma EffectStays(w: World, e: Event, u: nat, task: Task)
    requires GenerationsBound(w) && Stopping(task) && TakesEffect(w, u, task)
    requires Enabled(w, e) && (IsCall(e) ==> e.name != task.name)
    ensures TakesEffect(Step(w, e), u, task)
  {
    StoppedStays(w, e, task.name);
    var next := Step(w, e);
    forall t | t in next.tasks && next.tasks[t].name == task.name && Stopping(next.tasks[t])
      ensures t == u && next.tasks[t] == task
    {
      StoppingComesFrom(w, e, t, task.name);
    }
    if UnderWay(w, u, task) {
      EffectComes(w, e, u, task);
    } else {
      EffectLasts(w, e, u, task);
    }
  }

  lemma {:induction false} EffectStaysAlong(from: World, events: seq<Event>, to: World, u: nat, task: Task)
    requires GenerationsBound(from) && Stopping(task) && TakesEffect(from, u, task)
    requires Leads(from, events, to) && NoCalls(events, task.name)
    ensures TakesEffect(to, u, task)
    decreases |events|
  {
    if events != [] {
      BoundStays(from, events[0]);
      EffectStays(from, events[0], u, task);
      assert forall i | 0 <= i < |events[1..]| :: events[1..][i] == events[i + 1];
      EffectStaysAlong(Step(from, events[0]), events[1..], to, u, task);
    }
  }

  /** With no other removal or disabling of the server under way, and no retry past its check, a call has
      either still to return or the server is forgotten, or disabled, and stays so in every run. */
  lemma StopLasts(w: World, e: Event, events: seq<Event>, to: World)
    requires Reachable(w) && Enabled(w, e) && (e.CallRemove? || e.CallDisable?)
    requires forall t :: !RetryPastCheck(w, e.name, t)
    requires !StoppingNow(w, e.name)
    requires Leads(Step(w, e), events, to) && NoCalls(events, e.name)
    ensures var task := Step(w, e).tasks[e.u];
            Stopping(task) && (UnderWay(to, e.u, task) || HasStopped(to.shared, task))
  {
    StopSupersedes(w, e, e.name);
    EffectStaysAlong(Step(w, e), events, to, e.u, Step(w, e).tasks[e.u]);
  }

  // ---- runs that happen ---------------------------------------------------

  lemma StartConnects(name: string)
    ensures Reachable(START)
    ensures Step(START, CallConnect(0, name, 1)).tasks == map[0 := Marking(name, 1, 1)]
    ensures Generation(Step(START, CallConnect(0, name, 1)).shared, name) == 1
  {
    assert Leads(START, [], START);
  }

  lemma RacingIsReachable(name: string) returns (w: World)
    ensures Reachable(w) && w.tasks == map[0 := Racing(name, 1, 1)]
    ensures Generation(w.shared, name) == 1 && StatusOf(w.shared, name).state == Connecting
  {
    StartConnects(name);
    w := Play(START, CallConnect(0, name, 1));
    w := Play(w, Mark(0));
  }

  lemma FailureArms(w: World, name: string)
    requires w.tasks == map[0 := Racing(name, 1, 1)] && Generation(w.shared, name) == 1
    ensures var next := Step(w, Settle(0, 1, 2, Failure(Unreachable, "refused")));
            && next.tasks == map[1 := Timer(name, 1)] && Generation(next.shared, name) == 1
            && StatusOf(next.shared, name).state == Failed
  {}

  lemma TimerFires(w: World, name: string)
    requires w.tasks == map[1 := Timer(name, 1)] && Generation(w.shared, name) == 1
    requires StatusOf(w.shared, name).state == Failed
    ensures Step(w, Fire(1)).tasks == map[1 := Firing(name)] && Step(w, Fire(1)).shared == w.shared
  {}

  /** An attempt fails, its retry fires and passes the check. */
  lemma RetryPastCheckIsReachable(name: string) returns (w: World)
    ensures Reachable(w) && w.tasks == map[1 := Firing(name)]
    ensures Generation(w.shared, name) == 1
  {
    w := RacingIsReachable(name);
    FailureArms(w, name);
    w := Play(w, Settle(0, 1, 2, Failure(Unreachable, "refused")));
    TimerFires(w, name);
    w := Play(w, Fire(1));
  }

  lemma StopOverRetry(w: World, name: string, call: Event, finish: Event) returns (to: World)
    requires w.tasks == map[1 := Firing(name)] && Generation(w.shared, name) == 1
    requires || (call == CallDisable(2, name) && finish == FinishDisable(2))
             || (call == CallRemove(2, name) && finish == FinishRemove(2))
    ensures 2 !in w.tasks && Leads(w, [call, finish], to) && MayConnect(to, name)
    ensures if call.CallRemove? then name !in to.shared.statuses else StatusOf(to.shared, name).state == Disabled
  {
    StopLeavesRetry(w, name, call, finish);
    to := Step(Step(w, call), finish);
    LeadsTwo(w, call, finish);
    RetryMayConnect(to, name, 1);
  }

  lemma StopLeavesRetry(w: World, name: string, call: Event, finish: Event)
    requires w.tasks == map[1 := Firing(name)] && Generation(w.shared, name) == 1
    requires || (call == CallDisable(2, name) && finish == FinishDisable(2))
             || (call == CallRemove(2, name) && finish == FinishRemove(2))
    ensures Enabled(w, call) && Enabled(Step(w, call), finish)
    ensures RetryPastCheck(Step(Step(w, call), finish), name, 1)
    ensures var next := Step(Step(w, call), finish).shared;
            if call.CallRemove? then name !in next.statuses else StatusOf(next, name).state == Disabled
  {}

  /** So a disabled server can reconnect: the retry checks, the server is disabled, the retry goes on. */
  lemma DisabledServerMayReconnect(name: string) returns (w: World, disabled: World)
    ensures Reachable(w) && 2 !in w.tasks
    ensures Leads(w, [CallDisable(2, name), FinishDisable(2)], disabled)
    ensures StatusOf(disabled.shared, name).state == Disabled && MayConnect(disabled, name)
  {
    w := RetryPastCheckIsReachable(name);
    disabled := StopOverRetry(w, name, CallDisable(2, name), FinishDisable(2));
  }

  /** The retry may also go on between the two sections of `Disable`: the call then returns with the server
      disabled and no retry past its check, and still the server connects. */
  lemma DisabledServerMayConnect(name: string) returns (disabled: World, connected: World)
    ensures Reachable(disabled) && StatusOf(disabled.shared, name).state == Disabled
    ensures disabled.tasks == map[1 := Racing(name, 3, 1)]
    ensures Leads(disabled, [Settle(1, 2, 2, Success(5))], connected)
    ensures StatusOf(connected.shared, name).state == Connected
  {
    var w := RetryPastCheckIsReachable(name);
    w := Play(w, CallDisable(2, name));
    assert w.tasks == map[1 := Firing(name), 2 := Disabling(name, 2)];
    disabled := RetryWithinDisable(w, name);
    connected := Step(disabled, Settle(1, 2, 2, Success(5)));
    LeadsOne(disabled, Settle(1, 2, 2, Success(5)));
  }

  lemma RetryWithinDisable(w: World, name: string) returns (to: World)
    requires Reachable(w) && w.tasks == map[1 := Firing(name), 2 := Disabling(name, 2)]
    requires Generation(w.shared, name) == 2
    ensures Reachable(to) && to.tasks == map[1 := Racing(name, 3, 1)]
    ensures Generation(to.shared, name) == 3 && StatusOf(to.shared, name).state == Disabled
  {
    to := Play(w, Reconnect(1, 1));
    assert to.tasks == map[1 := Marking(name, 3, 1), 2 := Disabling(name, 2)];
    to := MarkedWithinDisable(to, name);
  }

  lemma MarkedWithinDisable(w: World, name: string) returns (to: World)
    requires Reachable(w) && w.tasks == map[1 := Marking(name, 3, 1), 2 := Disabling(name, 2)]
    requires Generation(w.shared, name) == 3
    ensures Reachable(to) && to.tasks == map[1 := Racing(name, 3, 1)]
    ensures Generation(to.shared, name) == 3 && StatusOf(to.shared, name).state == Disabled
  {
    to := Play(w, Mark(1));
    assert to.tasks == map[1 := Racing(name, 3, 1), 2 := Disabling(name, 2)];
    to := FinishedDisable(to, name);
  }

  lemma FinishedDisable(w: World, name: string) returns (to: World)
    requires Reachable(w) && w.tasks == map[1 := Racing(name, 3, 1), 2 := Disabling(name, 2)]
    requires Generation(w.shared, name) == 3
    ensures Reachable(to) && to.tasks == map[1 := Racing(name, 3, 1)]
    ensures Generation(to.shared, name) == 3 && StatusOf(to.shared, name).state == Disabled
  {
    to := Play(w, FinishDisable(2));
  }

  /** A deleted server can reconnect in the same way. */
  lemma RemovedServerMayReconnect(name: string) returns (w: World, removed: World)
    ensures Reachable(w) && 2 !in w.tasks
    ensures Leads(w, [CallRemove(2, name), FinishRemove(2)], removed)
    ensures name !in removed.shared.statuses && MayConnect(removed, name)
  {
    w := RetryPastCheckIsReachable(name);
    removed := StopOverRetry(w, name, CallRemove(2, name), FinishRemove(2));
  }

  /** So can a server of a closed manager. */
  lemma ClosedManagerMayConnect(name: string) returns (w: World)
    ensures Reachable(w) && MayConnect(Step(w, Close), name)
  {
    w := RetryPastCheckIsReachable(name);
    assert RetryPastCheck(w, name, 1);
    ClosedStaysExactlyWithoutRetryPastCheck(w, name);
  }

  lemma ForcedTimeoutIsReachable(name: string) returns (w: World)
    ensures Reachable(w) && w.tasks == map[0 := Late(name, 1, 1), 1 := Timer(name, 1)]
    ensures Generation(w.shared, name) == 1 && StatusOf(w.shared, name).state == Failed
  {
    w := RacingIsReachable(name);
    w := Play(w, Deadline(0, 1, 2));
  }

  /** A stored client is watched at its generation until it dies or its watcher is stopped, which removes the
      watcher and nothing else. */
  lemma ClientIsWatched(w: World, t: nat, u: nat)
    requires Enabled(w, StoreClient(t, u))
    ensures var stored := Step(w, StoreClient(t, u));
            && stored.shared == w.shared
            && stored.tasks == w.tasks[u := Watching(w.tasks[t].name, w.tasks[t].gen)]
            && Enabled(stored, StopWatching(u)) && Step(stored, StopWatching(u)).shared == w.shared
            && Step(stored, StopWatching(u)).tasks == w.tasks
            && forall v, now, reason, message | v !in stored.tasks :: Enabled(stored, Die(u, v, now, reason, message))
  {
    assert w.tasks[u := Watching(w.tasks[t].name, w.tasks[t].gen)] - {u} == w.tasks;
  }

  lemma ConnectedIsReachable(name: string) returns (w: World)
    ensures Reachable(w) && w.tasks == map[1 := Watching(name, 1)]
    ensures Generation(w.shared, name) == 1 && StatusOf(w.shared, name).state == Connected
  {
    w := RacingIsReachable(name);
    w := StoredIsReachable(w, name);
    w := Play(w, Settle(0, 2, 3, Success(5)));
    assert w.tasks == map[1 := Watching(name, 1)];
  }

  lemma StoredIsReachable(w: World, name: string) returns (stored: World)
    requires Reachable(w) && w.tasks == map[0 := Racing(name, 1, 1)] && Generation(w.shared, name) == 1
    ensures Reachable(stored) && stored.tasks == map[0 := Racing(name, 1, 1), 1 := Watching(name, 1)]
    ensures Generation(stored.shared, name) == 1
  {
    stored := Play(w, StoreClient(0, 1));
  }

  lemma DeathArms(w: World, name: string)
    requires w.tasks == map[1 := Watching(name, 1)] && Generation(w.shared, name) == 1
    ensures var next := Step(w, Die(1, 2, 9, Unreachable, "gone"));
            && next.tasks == map[2 := Timer(name, 1)] && Generation(next.shared, name) == 1
            && StatusOf(next.shared, name).state == Failed
  {}

  /** The deployment heals: after the client of a connected server has died, the server can come to be
      connecting again without any lifecycle call. */
  lemma DeadServerReconnects(name: string) returns (connected: World, failed: World)
    ensures Reachable(connected) && StatusOf(connected.shared, name).state == Connected
    ensures Leads(connected, [Die(1, 2, 9, Unreachable, "gone")], failed)
    ensures StatusOf(failed.shared, name).state == Failed && MayConnect(failed, name)
  {
    connected := ConnectedIsReachable(name);
    DeathArms(connected, name);
    LeadsOne(connected, Die(1, 2, 9, Unreachable, "gone"));
    failed := Step(connected, Die(1, 2, 9, Unreachable, "gone"));
    TimerConnects(failed, name);
  }

  lemma TimerConnects(w: World, name: string)
    requires w.tasks == map[2 := Timer(name, 1)] && Generation(w.shared, name) == 1
    requires StatusOf(w.shared, name).state == Failed
    ensures MayConnect(w, name)
  {
    var fired := Step(w, Fire(2));
    assert fired.tasks == map[2 := Firing(name)];
    var to := RetryConnects(fired, name, 2);
    var events := [Reconnect(2, 1), Mark(2)];
    assert ([Fire(2)] + events)[1..] == events;
    assert Leads(w, [Fire(2)] + events, to);
    assert NoCalls([Fire(2)] + events, name);
  }

  /** A reachable forced timeout that a late success replaces, with another step in between. */
  lemma LateResultReplacesTimeout(name: string) returns (timedOut: World, settled: World)
    ensures Reachable(timedOut) && StatusOf(timedOut.shared, name).state == Failed
    ensures Reachable(settled) && StatusOf(settled.shared, name).state == Connected
    ensures Leads(timedOut, [StopTimer(1), Settle(0, 2, 3, Success(5))], settled)
  {
    timedOut := ForcedTimeoutIsReachable(name);
    var w := Play(timedOut, StopTimer(1));
    assert w.tasks == map[0 := Late(name, 1, 1)];
    settled := Play(w, Settle(0, 2, 3, Success(5)));
    LeadsTwo(timedOut, StopTimer(1), Settle(0, 2, 3, Success(5)));
  }

  /** Closing the manager over an attempt leaves its server `connecting` until the next lifecycle call,
      whatever else happens. */
  lemma ClosedServerHangs(name: string) returns (closed: World)
    ensures Reachable(closed)
    ensures forall events, to | Leads(closed, events, to) && NoCalls(events, name) ::
              StatusOf(to.shared, name).state == Connecting
  {
    var w := RacingIsReachable(name);
    assert StatusOf(w.shared, name).state == Connecting;
    closed := Play(w, Close);
    assert closed.tasks == map[0 := Racing(name, 1, 1)];
    StopSupersedes(w, Close, name);
    assert !StoppingNow(closed, name);
    forall events, to | Leads(closed, events, to) && NoCalls(events, name)
      ensures StatusOf(to.shared, name).state == Connecting
    {
      StoppedStaysAlong(closed, events, to, name);
    }
  }

  /** An `Add` over an attempt leaves the server `connecting` for as long as the `Add` hangs. */
  lemma AddedServerHangs(name: string) returns (w: World)
    ensures Reachable(w) && StatusOf(w.shared, name).state == Connecting && !CanEndAlone(w, name)
  {
    w := RacingIsReachable(name);
    w := Play(w, CallAdd(1, name, 2));
    assert w.tasks == map[0 := Racing(name, 1, 1), 1 := Adding(name, 2, 2)];
    ConnectingEndsExactlyWithBoundedTask(w, name);
  }

  // ---- the manager in place -----------------------------------------------

  class Manager {
    var generations: map<string, nat>
    var statuses: map<string, Status>
    ghost var applied: map<string, seq<Status>>
    ghost var written: map<string, nat>

    ghost function View(): Shared
      reads this
    {
      Shared(generations, statuses, applied, written)
    }

    constructor ()
      ensures View() == START.shared
    {
      generations, statuses, applied, written := map[], map[], map[], map[];
    }

    method BumpGeneration(name: string) returns (gen: nat)
      modifies this
      ensures View() == Bumped(old(View()), name) && gen == Generation(View(), name)
    {
      gen := (if name in generations then generations[name] else 0) + 1;
      generations := generations[name := gen];
    }

    method SetStatusIfCurrent(name: string, gen: nat, st: Status) returns (ok: bool)
      modifies this
      ensures View() == WrittenIfCurrent(old(View()), name, gen, st)
      ensures ok <==> Generation(old(View()), name) == gen
    {
      if (if name in generations then generations[name] else 0) != gen {
        return false;
      }
      WriteStatus(name, st);
      return true;
    }

    method WriteStatus(name: string, st: Status)
      modifies this
      ensures View() == Written(old(View()), name, st)
    {
      applied := applied[name := AppliedTo(View(), name) + [st]];
      written := written[name := Generation(View(), name)];
      statuses := statuses[name := MergeStatus(if name in statuses then statuses[name] else ZERO, st)];
    }

    method ForgetStatus(name: string)
      modifies this
      ensures View() == Forgotten(old(View()), name)
    {
      statuses := statuses - {name};
      applied := applied - {name};
      written := written - {name};
    }

    /** `Remove`, when no other step comes between its two sections. */
    method Remove(name: string)
      modifies this
      ensures View() == Forgotten(Bumped(old(View()), name), name)
    {
      var gen := BumpGeneration(name);
      ForgetStatus(name);
    }

    /** `Disable`, likewise. */
    method Disable(name: string)
      modifies this
      ensures View() == Written(Bumped(old(View()), name), name, DISABLED)
    {
      var gen := BumpGeneration(name);
      WriteStatus(name, DISABLED);
    }

    method RetryIsCurrent(name: string, gen: nat) returns (ok: bool)
      ensures ok == MayRetry(View(), name, gen)
    {
      var curGen := if name in generations then generations[name] else 0;
      var curState := (if name in statuses then statuses[name] else ZERO).state;
      return curGen == gen && curState == Failed;
    }

    /** The part of `Close` that supersedes every attempt. */
    method BumpAll()
      modifies this
      ensures View() == BumpedAll(old(View()))
    {
      var names := generations.Keys;
      while names != {}
        invariant names <= generations.Keys == old(generations).Keys
        invariant statuses == old(statuses) && applied == old(applied) && written == old(written)
        invariant forall name | name in generations ::
                    generations[name] == old(generations)[name] + if name in names then 0 else 1
      {
        var name :| name in names;
        generations := generations[name := generations[name] + 1];
        names := names - {name};
      }
    }
  }
}
