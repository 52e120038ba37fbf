/** The slots that bound how many driver calls one upstream has in flight. Every channel operation,
    timer event and health update is one step; calls take steps in any order. */
module UpstreamSlots {
  import opened Collections
  import opened Wrappers

  datatype Outcome = Success | DriverError | QueueError | FirstTokenTimeout | TurnTimeout | ParentError

  datatype Driver = NotStarted | Running | Returned(ok: bool)

  datatype Timer = Armed | Fired | Stopped

  /** Where a call is; `Draining` and `Drained` belong to the goroutine a timeout leaves behind. */
  datatype Pc =
    | Queued
    | Awaiting
    | Releasing(ok: bool)
    | Recording(outcome: Outcome)
    | TimingOut(cause: Outcome)
    | Draining
    | Drained
    | Done

  /** The result channel holds the driver's result until it is `received`. `turnDone` says whether the
      turn's context has ended, `turnExpired` and `timerFired` whether a deadline really passed, and
      `releases` counts how often the call has given its slot back. */
  datatype Call = Call(
    pc: Pc,
    driver: Driver,
    received: bool,
    tokenSent: bool,
    tokenSeen: bool,
    timer: Timer,
    parentDone: bool,
    turnDone: bool,
    turnExpired: bool,
    timerFired: bool,
    releases: nat)

  datatype Record = Record(call: nat, outcome: Outcome)

  /** The slot channel's occupancy and the health log. */
  datatype Shared = Shared(slots: nat, health: seq<Record>)

  datatype World = World(shared: Shared, calls: map<nat, Call>)

  datatype Event =
    | Arrive(c: nat)
    | Acquire(c: nat)
    | LeaveQueue(c: nat)
    | CancelParent(c: nat)
    | ExpireTurn(c: nat)
    | FireTimer(c: nat)
    | FirstDelta(c: nat)
    | DriverReturns(c: nat, ok: bool)
    | SeeFirstToken(c: nat)
    | TakeResult(c: nat)
    | TakeTimer(c: nat)
    | TakeTurnDone(c: nat)
    | Release(c: nat)
    | RecordOutcome(c: nat)
    | RecordTimeout(c: nat)
    | Drain(c: nat)

  const START := World(Shared(0, []), map[])

  const NEW_CALL := Call(Queued, NotStarted, false, false, false, Armed, false, false, false, false, 0)

  // ---- steps --------------------------------------------------------------

  /** When a call by itself can take a step. */
  predicate Ready(call: Call, e: Event) {
    match e
    case Arrive(_) => false
    case Acquire(_) => call.pc.Queued?
    case LeaveQueue(_) => call.pc.Queued? && call.parentDone
    case CancelParent(_) => true
    case ExpireTurn(_) => call.driver != NotStarted && !call.turnDone
    case FireTimer(_) => call.pc.Awaiting? && call.timer.Armed?
    case FirstDelta(_) => call.driver.Running? && !call.turnDone && !call.tokenSent
    case DriverReturns(_, _) => call.driver.Running?
    case SeeFirstToken(_) => call.pc.Awaiting? && call.tokenSent && !call.tokenSeen
    case TakeResult(_) => call.pc.Awaiting? && call.driver.Returned? && !call.received
    case TakeTimer(_) => call.pc.Awaiting? && call.timer.Fired?
    case TakeTurnDone(_) => call.pc.Awaiting? && call.turnDone
    case Release(_) => call.pc.Releasing? || call.pc.Drained?
    case RecordOutcome(_) => call.pc.Recording?
    case RecordTimeout(_) => call.pc.TimingOut?
    case Drain(_) => call.pc.Draining? && call.driver.Returned? && !call.received
  }

  /** Where a step takes the call. */
  function PcAfter(call: Call, e: Event): (pc: Pc)
    requires Ready(call, e)
    ensures Occupies(pc) == ((Occupies(call.pc) || e.Acquire?) && !e.Release?)
    ensures IsRecorded(pc) == (IsRecorded(call.pc) || e.RecordOutcome? || e.RecordTimeout?)
  {
    match e
    case Acquire(_) => Awaiting
    case LeaveQueue(_) => Recording(QueueError)
    case TakeResult(_) => Releasing(call.driver.ok)
    case TakeTimer(_) => TimingOut(FirstTokenTimeout)
    case TakeTurnDone(_) => TimingOut(if call.parentDone then ParentError else TurnTimeout)
    case Release(_) => if call.pc.Drained? then Done else Recording(if call.pc.ok then Success else DriverError)
    case RecordOutcome(_) => Done
    case RecordTimeout(_) => Draining
    case Drain(_) => Drained
    case _ => call.pc
  }

  /** And what else it changes: what happened to the call stays so. */
  function Changed(call: Call, e: Event): (next: Call)
    requires Ready(call, e)
    ensures (call.parentDone ==> next.parentDone) && (call.turnExpired ==> next.turnExpired)
    ensures (call.timerFired ==> next.timerFired) && (next.tokenSeen ==> call.tokenSeen || e.SeeFirstToken?)
    ensures !e.Acquire? && !call.driver.Running? ==> next.driver == call.driver
  {
    match e
    case Acquire(_) => call.(driver := Running, timer := Armed, turnDone := call.parentDone)
    case CancelParent(_) => call.(parentDone := true, turnDone := true)
    case ExpireTurn(_) => call.(turnDone := true, turnExpired := true)
    case FireTimer(_) => call.(timer := Fired, timerFired := true)
    case FirstDelta(_) => call.(tokenSent := true)
    case DriverReturns(_, ok) => call.(driver := Returned(ok))
    case SeeFirstToken(_) => call.(tokenSeen := true, timer := Stopped)
    case TakeResult(_) => call.(received := true, timer := Stopped)
    case TakeTimer(_) => call.(timer := Stopped)
    case TakeTurnDone(_) => call.(timer := Stopped)
    case Release(_) => call.(releases := call.releases + 1)
    case RecordOutcome(_) => call.(turnDone := true)
    case RecordTimeout(_) => call.(turnDone := true)
    case Drain(_) => call.(received := true)
    case _ => call
  }

  function After(call: Call, e: Event): (next: Call)
    requires Ready(call, e)
    ensures next.pc == PcAfter(call, e)
  {
    Changed(call, e).(pc := PcAfter(call, e))
  }

  function Acquired(s: Shared): Shared {
    s.(slots := s.slots + 1)
  }

  function Released(s: Shared): Shared
    requires s.slots > 0
  {
    s.(slots := s.slots - 1)
  }

  function Logged(s: Shared, c: nat, outcome: Outcome): Shared {
    s.(health := s.health + [Record(c, outcome)])
  }

  /** Sending to the slot channel waits while it is full, receiving while it is empty. */
  predicate Enabled(w: World, max: nat, e: Event) {
    if e.Arrive? then e.c !in w.calls
    else
      && e.c in w.calls && Ready(w.calls[e.c], e)
      && (e.Acquire? ==> w.shared.slots < max)
      && (e.Release? ==> w.shared.slots > 0)
  }

  function Step(w: World, max: nat, e: Event): World
    requires Enabled(w, max, e)
  {
    if e.Arrive? then World(w.shared, w.calls[e.c := NEW_CALL])
    else
      var call := w.calls[e.c];
      var shared := match e
        case Acquire(_) => Acquired(w.shared)
        case Release(_) => Released(w.shared)
        case RecordOutcome(c) => Logged(w.shared, c, call.pc.outcome)
        case RecordTimeout(c) => Logged(w.shared, c, call.pc.cause)
        case _ => w.shared;
      World(shared, w.calls[e.c := After(call, e)])
  }

  ghost predicate Leads(from: World, max: nat, events: seq<Event>, to: World)
    decreases events
  {
    if events == [] then from == to
    else Enabled(from, max, events[0]) && Leads(Step(from, max, events[0]), max, events[1..], to)
  }

  ghost predicate Reachable(w: World, max: nat) {
    exists events :: Leads(START, max, events, w)
  }

  // ---- what every step keeps ----------------------------------------------

  /** A slot is occupied while its call is awaited or, timed out, not yet drained and released. */
  predicate Occupies(pc: Pc) {
    pc.Awaiting? || pc.Releasing? || pc.TimingOut? || pc.Draining? || pc.Drained?
  }

  predicate IsRecorded(pc: Pc) {
    pc.Draining? || pc.Drained? || pc.Done?
  }

  function Occupants(calls: map<nat, Call>): set<nat> {
    set c | c in calls && Occupies(calls[c].pc)
  }

  function InFlight(calls: map<nat, Call>): set<nat> {
    set c | c in calls && calls[c].driver.Running?
  }

  function OutcomesOf(health: seq<Record>, c: nat): seq<Outcome> {
    if health == [] then []
    else
      var last := health[|health| - 1];
      OutcomesOf(health[..|health| - 1], c) + if last.call == c then [last.outcome] else []
  }

  lemma OutcomesSnoc(health: seq<Record>, r: Record, c: nat)
    ensures OutcomesOf(health + [r], c) == OutcomesOf(health, c) + if r.call == c then [r.outcome] else []
  {
    assert (health + [r])[..|health|] == health;
  }

  /** What really happened to the call: what its driver returned, which deadline passed, or that its
      caller gave up. */
  predicate Explains(call: Call, outcome: Outcome) {
    match outcome
    case Success => call.driver == Returned(true)
    case DriverError => call.driver == Returned(false)
    case QueueError => call.parentDone && call.driver.NotStarted?
    case FirstTokenTimeout => call.timerFired && !call.tokenSeen
    case TurnTimeout => call.turnExpired
    case ParentError => call.parentDone && !call.driver.NotStarted?
  }

  predicate HistoryOk(call: Call) {
    && call.releases == (if call.driver.NotStarted? || Occupies(call.pc) then 0 else 1)
    && (call.pc.Queued? ==> call.driver.NotStarted?)
    && (Occupies(call.pc) ==> !call.driver.NotStarted?)
    && (call.driver.Running? ==> call.pc.Awaiting? || call.pc.TimingOut? || call.pc.Draining?)
    && (call.received ==> call.driver.Returned? && !call.pc.Awaiting? && !call.pc.TimingOut? && !call.pc.Draining?)
  }

  predicate TokensOk(call: Call) {
    && (call.tokenSeen ==> call.tokenSent && call.timer.Stopped?)
    && (call.tokenSent ==> !call.driver.NotStarted?)
  }

  predicate DeadlinesOk(call: Call) {
    && (call.pc.Awaiting? && call.turnDone ==> call.parentDone || call.turnExpired)
    && (IsRecorded(call.pc) ==> call.turnDone)
    && (call.timer.Fired? ==> call.timerFired)
  }

  predicate PendingOk(call: Call) {
    match call.pc
    case Releasing(ok) => call.driver == Returned(ok)
    case Recording(outcome) => Explains(call, outcome)
    case TimingOut(cause) =>
      Explains(call, cause) && (cause.FirstTokenTimeout? || cause.TurnTimeout? || cause.ParentError?)
    case _ => true
  }

  predicate CallOk(call: Call) {
    HistoryOk(call) && TokensOk(call) && DeadlinesOk(call) && PendingOk(call)
  }

  ghost predicate LogOk(health: seq<Record>, c: nat, call: Call) {
    var outcomes := OutcomesOf(health, c);
    && |outcomes| == (if IsRecorded(call.pc) then 1 else 0)
    && (outcomes != [] ==> Explains(call, outcomes[0]))
  }

  ghost predicate Inv(w: World, max: nat) {
    && w.shared.slots == |Occupants(w.calls)| && w.shared.slots <= max
    && (forall c | c in w.calls :: c in w.calls && CallOk(w.calls[c]))
    && (forall c | c in w.calls :: c in w.calls && LogOk(w.shared.health, c, w.calls[c]))
    && forall r | r in w.shared.health :: r.call in w.calls
  }

  lemma HistoryStaysOk(call: Call, e: Event)
    requires HistoryOk(call) && PendingOk(call) && Ready(call, e)
    ensures HistoryOk(After(call, e))
  {}

  lemma TokensStayOk(call: Call, e: Event)
    requires HistoryOk(call) && TokensOk(call) && Ready(call, e)
    ensures TokensOk(After(call, e))
  {}

  lemma DeadlinesStayOk(call: Call, e: Event)
    requires DeadlinesOk(call) && Ready(call, e)
    ensures DeadlinesOk(After(call, e))
  {}

  /** A step that takes a call to a place where an outcome is decided. */
  predicate Decides(e: Event) {
    e.LeaveQueue? || e.TakeResult? || e.TakeTimer? || e.TakeTurnDone? || e.Release?
  }

  lemma DecisionIsExplained(call: Call, e: Event)
    requires CallOk(call) && Ready(call, e) && Decides(e)
    ensures PendingOk(After(call, e))
  {}

  lemma PendingStays(call: Call, e: Event)
    requires CallOk(call) && Ready(call, e) && !Decides(e)
    ensures PendingOk(After(call, e))
  {}

  lemma PendingStaysOk(call: Call, e: Event)
    requires CallOk(call) && Ready(call, e)
    ensures PendingOk(After(call, e))
  {
    if Decides(e) {
      DecisionIsExplained(call, e);
    } else {
      PendingStays(call, e);
    }
  }

  lemma CallStaysOk(call: Call, e: Event)
    requires CallOk(call) && Ready(call, e)
    ensures CallOk(After(call, e))
  {
    HistoryStaysOk(call, e);
    TokensStayOk(call, e);
    DeadlinesStayOk(call, e);
    PendingStaysOk(call, e);
  }

  /** What explains an outcome goes on explaining it. */
  lemma StillExplains(call: Call, e: Event, outcome: Outcome)
    requires CallOk(call) && Ready(call, e) && Explains(call, outcome)
    requires IsRecorded(call.pc) || e.RecordOutcome? || e.RecordTimeout?
    ensures Explains(After(call, e), outcome)
  {
    assert !e.Acquire? && !e.SeeFirstToken?;
  }

  lemma OccupantsAfter(calls: map<nat, Call>, c: nat, call: Call)
    ensures Occupants(calls[c := call]) == (Occupants(calls) - {c}) + if Occupies(call.pc) then {c} else {}
  {}

  lemma {:induction false} NoOutcomes(health: seq<Record>, c: nat)
    requires forall r | r in health :: r.call != c
    ensures OutcomesOf(health, c) == []
    decreases |health|
  {
    if health != [] {
      NoOutcomes(health[..|health| - 1], c);
    }
  }

  lemma NewCallOk(health: seq<Record>, c: nat)
    requires forall r | r in health :: r.call != c
    ensures CallOk(NEW_CALL) && LogOk(health, c, NEW_CALL)
  {
    NoOutcomes(health, c);
  }

  lemma ArriveKeepsCall(w: World, max: nat, c: nat, d: nat)
    requires Inv(w, max) && c !in w.calls && d in Step(w, max, Arrive(c)).calls
    ensures CallOk(Step(w, max, Arrive(c)).calls[d])
    ensures LogOk(w.shared.health, d, Step(w, max, Arrive(c)).calls[d])
  {
    if d == c {
      NewCallOk(w.shared.health, c);
    }
  }

  lemma ArriveKeeps(w: World, max: nat, c: nat)
    requires Inv(w, max) && c !in w.calls
    ensures Inv(Step(w, max, Arrive(c)), max)
  {
    OccupantsAfter(w.calls, c, NEW_CALL);
    assert Occupants(w.calls[c := NEW_CALL]) == Occupants(w.calls);
    var next := Step(w, max, Arrive(c));
    forall d | d in next.calls
      ensures CallOk(next.calls[d]) && LogOk(next.shared.health, d, next.calls[d])
    {
      ArriveKeepsCall(w, max, c, d);
    }
  }

  /** Recording an outcome logs it for its call alone. */
  lemma RecordLogs(health: seq<Record>, call: Call, e: Event, outcome: Outcome)
    requires CallOk(call) && Ready(call, e) && LogOk(health, e.c, call) && Explains(call, outcome)
    requires (e.RecordOutcome? && call.pc == Recording(outcome)) || (e.RecordTimeout? && call.pc == TimingOut(outcome))
    ensures LogOk(health + [Record(e.c, outcome)], e.c, After(call, e))
  {
    StillExplains(call, e, outcome);
    OutcomesSnoc(health, Record(e.c, outcome), e.c);
  }

  lemma OwnLogStays(health: seq<Record>, call: Call, e: Event)
    requires CallOk(call) && Ready(call, e) && LogOk(health, e.c, call) && !e.RecordOutcome? && !e.RecordTimeout?
    ensures LogOk(health, e.c, After(call, e))
  {
    if IsRecorded(call.pc) {
      StillExplains(call, e, OutcomesOf(health, e.c)[0]);
    }
  }

  /** What a step logs. */
  function Logs(call: Call, e: Event): seq<Outcome>
    requires Ready(call, e)
  {
    if e.RecordOutcome? then [call.pc.outcome] else if e.RecordTimeout? then [call.pc.cause] else []
  }

  lemma StepHealth(w: World, max: nat, e: Event)
    requires Enabled(w, max, e) && !e.Arrive?
    ensures var logs := Logs(w.calls[e.c], e);
            Step(w, max, e).shared.health
            == if logs == [] then w.shared.health else w.shared.health + [Record(e.c, logs[0])]
    ensures Step(w, max, e).calls == w.calls[e.c := After(w.calls[e.c], e)]
  {}

  lemma OwnLogs(health: seq<Record>, call: Call, e: Event)
    requires CallOk(call) && Ready(call, e) && LogOk(health, e.c, call)
    ensures var logs := Logs(call, e);
            LogOk(if logs == [] then health else health + [Record(e.c, logs[0])], e.c, After(call, e))
  {
    if e.RecordOutcome? || e.RecordTimeout? {
      RecordLogs(health, call, e, Logs(call, e)[0]);
    } else {
      OwnLogStays(health, call, e);
    }
  }

  lemma CallStepLogs(w: World, max: nat, e: Event, c: nat)
    requires Inv(w, max) && Enabled(w, max, e) && !e.Arrive? && c in w.calls
    ensures LogOk(Step(w, max, e).shared.health, c, Step(w, max, e).calls[c])
  {
    var call := w.calls[e.c];
    assert CallOk(call) && LogOk(w.shared.health, c, w.calls[c]);
    StepHealth(w, max, e);
    if c == e.c {
      OwnLogs(w.shared.health, call, e);
    } else if Logs(call, e) != [] {
      OutcomesSnoc(w.shared.health, Record(e.c, Logs(call, e)[0]), c);
    }
  }

  lemma CallStepSlots(w: World, max: nat, e: Event)
    requires Inv(w, max) && Enabled(w, max, e) && !e.Arrive?
    ensures Step(w, max, e).shared.slots == |Occupants(Step(w, max, e).calls)| <= max
  {
    var call := w.calls[e.c];
    SlotMoves(call, e);
    OccupantsAfter(w.calls, e.c, After(call, e));
    ToggledSize(Occupants(w.calls), e.c, Occupies(After(call, e).pc));
    assert e.c in Occupants(w.calls) <==> Occupies(call.pc);
  }

  lemma SlotMoves(call: Call, e: Event)
    requires Ready(call, e)
    ensures (e.Acquire? ==> !Occupies(call.pc)) && (e.Release? ==> Occupies(call.pc))
    ensures Occupies(After(call, e).pc) == ((Occupies(call.pc) || e.Acquire?) && !e.Release?)
  {}

  lemma ToggledSize(s: set<nat>, c: nat, member: bool)
    ensures |(s - {c}) + if member then {c} else {}|
         == |s| - (if c in s then 1 else 0) + (if member then 1 else 0)
  {
    if member {
      assert (s - {c}) + {c} == s + {c};
    } else {
      assert (s - {c}) + {} == s - {c};
    }
  }

  lemma StepKeeps(w: World, max: nat, e: Event)
    requires Inv(w, max) && Enabled(w, max, e)
    ensures Inv(Step(w, max, e), max)
  {
    if e.Arrive? {
      ArriveKeeps(w, max, e.c);
    } else {
      CallStepSlots(w, max, e);
      CallsStayOk(w, max, e);
      LogsStayOk(w, max, e);
    }
  }

  lemma CallsStayOk(w: World, max: nat, e: Event)
    requires Inv(w, max) && Enabled(w, max, e) && !e.Arrive?
    ensures forall c | c in Step(w, max, e).calls :: CallOk(Step(w, max, e).calls[c])
    ensures forall r | r in Step(w, max, e).shared.health :: r.call in Step(w, max, e).calls
  {
    assert CallOk(w.calls[e.c]);
    CallStaysOk(w.calls[e.c], e);
  }

  lemma LogsStayOk(w: World, max: nat, e: Event)
    requires Inv(w, max) && Enabled(w, max, e) && !e.Arrive?
    ensures forall c | c in Step(w, max, e).calls :: LogOk(Step(w, max, e).shared.health, c, Step(w, max, e).calls[c])
  {
    var next := Step(w, max, e);
    forall c | c in next.calls
      ensures LogOk(next.shared.health, c, next.calls[c])
    {
      CallStepLogs(w, max, e, c);
    }
  }

  lemma {:induction false} RunKeeps(from: World, max: nat, events: seq<Event>, to: World)
    requires Inv(from, max) && Leads(from, max, events, to)
    ensures Inv(to, max)
    decreases |events|
  {
    if events != [] {
      StepKeeps(from, max, events[0]);
      RunKeeps(Step(from, max, events[0]), max, events[1..], to);
    }
  }

  lemma ReachableIsGood(w: World, max: nat)
    requires Reachable(w, max)
    ensures Inv(w, max)
  {
    var events :| Leads(START, max, events, w);
    RunKeeps(START, max, events, w);
  }

  // ---- what holds in every reachable world --------------------------------

  /** Occupied slots are the calls being awaited together with the timed-out calls whose result has
      not been drained and released; the drivers in flight are never more than that, nor than the
      limit. */
  lemma SlotsAreConserved(w: World, max: nat)
    requires Reachable(w, max)
    ensures w.shared.slots == |Occupants(w.calls)|
    ensures |InFlight(w.calls)| <= w.shared.slots <= max
  {
    ReachableIsGood(w, max);
    forall c | c in InFlight(w.calls)
      ensures c in Occupants(w.calls)
    {
      assert CallOk(w.calls[c]);
    }
    SubsetSize(InFlight(w.calls), Occupants(w.calls));
  }

  /** A slot is given back at most once: exactly once by a call that got one and is over, and not yet by
      one that timed out and whose result is still to be drained. */
  lemma ReleasedOnce(w: World, max: nat, c: nat)
    requires Reachable(w, max) && c in w.calls
    ensures w.calls[c].releases <= 1
    ensures IsRecorded(w.calls[c].pc) ==>
              (w.calls[c].releases == 1 <==> w.calls[c].pc.Done? && !w.calls[c].driver.NotStarted?)
  {
    ReachableIsGood(w, max);
    assert CallOk(w.calls[c]);
  }

  /** A call has exactly one health outcome once it has returned to its caller, timed-out calls that are
      still drained included: the one its driver, its deadlines or its caller explain. Before, it has none. */
  lemma OneOutcomeEach(w: World, max: nat, c: nat)
    requires Reachable(w, max) && c in w.calls
    ensures var outcomes := OutcomesOf(w.shared.health, c);
            if IsRecorded(w.calls[c].pc) then |outcomes| == 1 && Explains(w.calls[c], outcomes[0]) else outcomes == []
  {
    ReachableIsGood(w, max);
    assert LogOk(w.shared.health, c, w.calls[c]);
  }

  /** Giving a slot back never blocks. */
  lemma ReleaseNeverBlocks(w: World, max: nat, c: nat)
    requires Reachable(w, max) && c in w.calls && (w.calls[c].pc.Releasing? || w.calls[c].pc.Drained?)
    ensures Enabled(w, max, Release(c))
  {
    ReachableIsGood(w, max);
    assert c in Occupants(w.calls);
  }

  /** Once the first token has been seen, the first-token deadline can no longer end the call. */
  lemma NoFirstTokenTimeoutAfterToken(w: World, max: nat, c: nat)
    requires Reachable(w, max) && c in w.calls && w.calls[c].tokenSeen
    ensures !Enabled(w, max, TakeTimer(c)) && FirstTokenTimeout !in OutcomesOf(w.shared.health, c)
  {
    ReachableIsGood(w, max);
    assert CallOk(w.calls[c]) && LogOk(w.shared.health, c, w.calls[c]);
  }

  /** Once the call has returned to its caller, its driver passes no first token on any more. */
  lemma NoTokenAfterReturn(w: World, max: nat, c: nat)
    requires Reachable(w, max) && c in w.calls && IsRecorded(w.calls[c].pc)
    ensures !Enabled(w, max, FirstDelta(c))
  {
    ReachableIsGood(w, max);
    assert CallOk(w.calls[c]);
  }

  /** A step of the wrapper itself: not a new call, the driver, a clock or the caller. */
  predicate IsWrapperStep(e: Event) {
    e.Acquire? || e.TakeResult? || e.Release? || e.RecordOutcome? || e.RecordTimeout? || e.Drain?
  }

  /** While calls are left, a driver is still running or the wrapper itself can go on: no slot is
      ever lost. */
  lemma SomeoneCanGoOn(w: World, max: nat, c: nat) returns (e: Event)
    requires Reachable(w, max) && max > 0 && c in w.calls && !w.calls[c].pc.Done?
    requires InFlight(w.calls) == {}
    ensures IsWrapperStep(e) && Enabled(w, max, e)
  {
    ReachableIsGood(w, max);
    var d := c;
    if w.calls[c].pc.Queued? {
      if w.shared.slots < max {
        return Acquire(c);
      }
      d :| d in Occupants(w.calls);
    }
    var call := w.calls[d];
    assert CallOk(call);
    assert d !in InFlight(w.calls);
    assert call.pc.Awaiting? || call.pc.Draining? ==> call.driver.Returned? && !call.received;
    match call.pc
    case Queued =>
    case Awaiting => e := TakeResult(d);
    case Releasing(_) => ReleaseNeverBlocks(w, max, d); e := Release(d);
    case Recording(_) => e := RecordOutcome(d);
    case TimingOut(_) => e := RecordTimeout(d);
    case Draining => e := Drain(d);
    case Drained => ReleaseNeverBlocks(w, max, d); e := Release(d);
    case Done =>
  }

  /** The world of a single call. */
  function Only(slots: nat, health: seq<Record>, call: Call): World {
    World(Shared(slots, health), map[0 := call])
  }

  const AWAITED := NEW_CALL.(pc := Awaiting, driver := Running)
  const SENT := AWAITED.(tokenSent := true)
  const RACED := SENT.(timer := Fired, timerFired := true)
  const TIMING_OUT := RACED.(pc := TimingOut(FirstTokenTimeout), timer := Stopped)

  lemma NewIsReachable(max: nat)
    ensures Reachable(Only(0, [], NEW_CALL), max)
  {
    assert Leads(START, max, [], START);
    var w := Play(START, max, Arrive(0));
    assert w == Only(0, [], NEW_CALL);
  }

  lemma AwaitedIsReachable(max: nat)
    requires max > 0
    ensures Reachable(Only(1, [], AWAITED), max)
  {
    NewIsReachable(max);
    var w := Play(Only(0, [], NEW_CALL), max, Acquire(0));
    assert w == Only(1, [], AWAITED);
  }

  lemma SentIsReachable(max: nat)
    requires max > 0
    ensures Reachable(Only(1, [], SENT), max)
  {
    AwaitedIsReachable(max);
    var w := Play(Only(1, [], AWAITED), max, FirstDelta(0));
    assert w == Only(1, [], SENT);
  }

  /** A call whose first token was sent while its deadline fired, neither being seen yet. */
  lemma TokenAndDeadlineAreReachable(max: nat)
    requires max > 0
    ensures Reachable(Only(1, [], RACED), max)
  {
    SentIsReachable(max);
    var w := Play(Only(1, [], SENT), max, FireTimer(0));
    assert w == Only(1, [], RACED);
  }

  lemma TimingOutIsReachable(max: nat)
    requires max > 0
    ensures Reachable(Only(1, [], TIMING_OUT), max)
  {
    TokenAndDeadlineAreReachable(max);
    var w := Play(Only(1, [], RACED), max, TakeTimer(0));
    assert w == Only(1, [], TIMING_OUT);
  }

  /** Until it has been seen, a token does not stop the deadline: with both ready, either may win. */
  lemma TokenMayLoseTheRace(max: nat) returns (w: World)
    requires max > 0
    ensures Reachable(w, max) && 0 in w.calls && w.calls[0].tokenSent
    ensures OutcomesOf(w.shared.health, 0) == [FirstTokenTimeout]
  {
    TimingOutIsReachable(max);
    w := Play(Only(1, [], TIMING_OUT), max, RecordTimeout(0));
    OutcomesSnoc([], Record(0, FirstTokenTimeout), 0);
    assert w.shared.health == [] + [Record(0, FirstTokenTimeout)];
  }

  lemma OnlyPlays(slots: nat, health: seq<Record>, call: Call, max: nat, e: Event)
    requires e.c == 0 && !e.Arrive? && Ready(call, e)
    requires (e.Acquire? ==> slots < max) && (e.Release? ==> slots > 0)
    requires Reachable(Only(slots, health, call), max)
    ensures var log := if e.RecordOutcome? then health + [Record(0, call.pc.outcome)]
                       else if e.RecordTimeout? then health + [Record(0, call.pc.cause)] else health;
            var left := if e.Acquire? then slots + 1 else if e.Release? then slots - 1 else slots;
            Reachable(Only(left, log, After(call, e)), max)
  {
    var w := Play(Only(slots, health, call), max, e);
    var log := if e.RecordOutcome? then health + [Record(0, call.pc.outcome)]
               else if e.RecordTimeout? then health + [Record(0, call.pc.cause)] else health;
    var left := if e.Acquire? then slots + 1 else if e.Release? then slots - 1 else slots;
    assert w.calls == map[0 := After(call, e)];
    assert w == Only(left, log, After(call, e));
  }

  /** The call returned to its caller with one record, and holds no slot. */
  ghost predicate Ends(max: nat, outcome: Outcome) {
    exists call :: Reachable(Only(0, [Record(0, outcome)], call), max) && call.pc.Done?
  }

  lemma ReturnedIsReachable(max: nat, ok: bool) returns (call: Call)
    requires max > 0
    ensures Reachable(Only(1, [], call), max)
    ensures call.pc.Awaiting? && call.driver == Returned(ok) && !call.received
  {
    SentIsReachable(max);
    OnlyPlays(1, [], SENT, max, SeeFirstToken(0));
    call := After(SENT, SeeFirstToken(0));
    OnlyPlays(1, [], call, max, DriverReturns(0, ok));
    call := After(call, DriverReturns(0, ok));
  }

  lemma TakenIsReachable(max: nat, ok: bool) returns (call: Call)
    requires max > 0
    ensures Reachable(Only(0, [], call), max) && call.pc == Recording(if ok then Success else DriverError)
  {
    call := ReturnedIsReachable(max, ok);
    OnlyPlays(1, [], call, max, TakeResult(0));
    call := After(call, TakeResult(0));
    OnlyPlays(1, [], call, max, Release(0));
    call := After(call, Release(0));
  }

  lemma ResultIsReachable(max: nat, ok: bool)
    requires max > 0
    ensures Ends(max, if ok then Success else DriverError)
  {
    var call := TakenIsReachable(max, ok);
    OnlyPlays(0, [], call, max, RecordOutcome(0));
    assert [] + [Record(0, call.pc.outcome)] == [Record(0, if ok then Success else DriverError)];
  }

  lemma QueueErrorIsReachable(max: nat)
    ensures Ends(max, QueueError)
  {
    NewIsReachable(max);
    OnlyPlays(0, [], NEW_CALL, max, CancelParent(0));
    var cancelled := After(NEW_CALL, CancelParent(0));
    OnlyPlays(0, [], cancelled, max, LeaveQueue(0));
    var left := After(cancelled, LeaveQueue(0));
    OnlyPlays(0, [], left, max, RecordOutcome(0));
    assert [] + [Record(0, QueueError)] == [Record(0, QueueError)];
  }

  /** A timed-out call whose outcome is recorded, and whose driver is then waited for. */
  lemma TimedOutEnds(max: nat, call: Call, cause: Outcome)
    requires max > 0 && call.pc == TimingOut(cause) && call.driver.Running? && !call.received
    requires Reachable(Only(1, [], call), max)
    ensures Ends(max, cause)
  {
    OnlyPlays(1, [], call, max, RecordTimeout(0));
    var health := [Record(0, cause)];
    assert [] + health == health;
    var recorded := After(call, RecordTimeout(0));
    OnlyPlays(1, health, recorded, max, DriverReturns(0, true));
    var returned := After(recorded, DriverReturns(0, true));
    OnlyPlays(1, health, returned, max, Drain(0));
    var drained := After(returned, Drain(0));
    OnlyPlays(1, health, drained, max, Release(0));
  }

  lemma TurnEndIsReachable(max: nat, byParent: bool)
    requires max > 0
    ensures Ends(max, if byParent then ParentError else TurnTimeout)
  {
    AwaitedIsReachable(max);
    var e := if byParent then CancelParent(0) else ExpireTurn(0);
    OnlyPlays(1, [], AWAITED, max, e);
    var ended := After(AWAITED, e);
    OnlyPlays(1, [], ended, max, TakeTurnDone(0));
    TimedOutEnds(max, After(ended, TakeTurnDone(0)), if byParent then ParentError else TurnTimeout);
  }

  /** Each of the six outcomes is that of a reachable run in which the call ends and its slot is free. */
  lemma EveryOutcomeHappens(max: nat, outcome: Outcome)
    requires max > 0
    ensures Ends(max, outcome)
  {
    match outcome
    case Success => ResultIsReachable(max, true);
    case DriverError => ResultIsReachable(max, false);
    case QueueError => QueueErrorIsReachable(max);
    case FirstTokenTimeout =>
      TimingOutIsReachable(max);
      TimedOutEnds(max, TIMING_OUT, FirstTokenTimeout);
    case TurnTimeout => TurnEndIsReachable(max, false);
    case ParentError => TurnEndIsReachable(max, true);
  }

  // ---- a call tells its run -----------------------------------------------

  lemma {:induction false} LastStep(from: World, max: nat, events: seq<Event>, to: World) returns (mid: World)
    requires Leads(from, max, events, to) && events != []
    ensures var n := |events| - 1;
            Leads(from, max, events[..n], mid) && Enabled(mid, max, events[n]) && Step(mid, max, events[n]) == to
    decreases |events|
  {
    var n := |events| - 1;
    if n == 0 {
      mid := from;
      assert events[1..] == [];
    } else {
      mid := LastStep(Step(from, max, events[0]), max, events[1..], to);
      assert events[1..][..n - 1] == events[..n][1..] && events[1..][n - 1] == events[n];
    }
  }

  function Releases(events: seq<Event>, c: nat): nat {
    if events == [] then 0
    else Releases(events[..|events| - 1], c) + if events[|events| - 1] == Release(c) then 1 else 0
  }

  /** What a call remembers is what happened to it in the run, no more and no less. */
  ghost predicate Tells(call: Call, c: nat, events: seq<Event>) {
    TellsDriver(call, c, events) && TellsSignals(call, c, events) && call.releases == Releases(events, c)
  }

  ghost predicate TellsDriver(call: Call, c: nat, events: seq<Event>) {
    && (call.driver.NotStarted? <==> Acquire(c) !in events)
    && (forall ok :: call.driver == Returned(ok) <==> DriverReturns(c, ok) in events)
  }

  ghost predicate TellsSignals(call: Call, c: nat, events: seq<Event>) {
    && (call.tokenSent <==> FirstDelta(c) in events)
    && (call.tokenSeen <==> SeeFirstToken(c) in events)
    && (call.parentDone <==> CancelParent(c) in events)
    && (call.turnExpired <==> ExpireTurn(c) in events)
    && (call.timerFired <==> FireTimer(c) in events)
  }

  ghost predicate AllTell(w: World, events: seq<Event>) {
    && (forall c | c in w.calls :: c in w.calls && Tells(w.calls[c], c, events))
    && forall e | e in events :: e.c in w.calls
  }

  lemma {:induction false} NoReleases(events: seq<Event>, c: nat)
    requires forall e | e in events :: e.c != c
    ensures Releases(events, c) == 0
    decreases |events|
  {
    if events != [] {
      NoReleases(events[..|events| - 1], c);
    }
  }

  lemma ReleasesSnoc(events: seq<Event>, e: Event, c: nat)
    ensures Releases(events + [e], c) == Releases(events, c) + if e == Release(c) then 1 else 0
  {
    assert (events + [e])[..|events|] == events;
  }

  lemma NewCallTells(c: nat, events: seq<Event>)
    requires forall e | e in events :: e.c != c
    ensures Tells(NEW_CALL, c, events + [Arrive(c)])
  {
    NoReleases(events, c);
    ReleasesSnoc(events, Arrive(c), c);
  }

  lemma OwnStepTells(call: Call, e: Event, events: seq<Event>)
    requires CallOk(call) && Ready(call, e) && Tells(call, e.c, events)
    ensures Tells(After(call, e), e.c, events + [e])
  {
    OwnDriverTells(call, e, events);
    OwnSignalsTell(call, e, events);
    ReleasesSnoc(events, e, e.c);
  }

  lemma OwnDriverTells(call: Call, e: Event, events: seq<Event>)
    requires HistoryOk(call) && Ready(call, e) && TellsDriver(call, e.c, events)
    ensures TellsDriver(After(call, e), e.c, events + [e])
  {}

  lemma OwnSignalsTell(call: Call, e: Event, events: seq<Event>)
    requires Ready(call, e) && TellsSignals(call, e.c, events)
    ensures TellsSignals(After(call, e), e.c, events + [e])
  {}

  lemma OtherStepTells(call: Call, c: nat, e: Event, events: seq<Event>)
    requires e.c != c && Tells(call, c, events)
    ensures Tells(call, c, events + [e])
  {
    ReleasesSnoc(events, e, c);
  }

  lemma StepTells(w: World, max: nat, e: Event, events: seq<Event>)
    requires Inv(w, max) && Enabled(w, max, e) && AllTell(w, events)
    ensures AllTell(Step(w, max, e), events + [e])
  {
    var next := Step(w, max, e);
    forall c | c in next.calls
      ensures Tells(next.calls[c], c, events + [e])
    {
      if c != e.c {
        OtherStepTells(w.calls[c], c, e, events);
      } else if e.Arrive? {
        NewCallTells(c, events);
      } else {
        OwnStepTells(w.calls[c], e, events);
      }
    }
  }

  lemma LeadsReachable(max: nat, events: seq<Event>, w: World)
    requires Leads(START, max, events, w)
    ensures Reachable(w, max)
  {}

  lemma TellsOnceMore(max: nat, events: seq<Event>, e: Event, mid: World)
    requires Leads(START, max, events, mid) && AllTell(mid, events) && Enabled(mid, max, e)
    ensures AllTell(Step(mid, max, e), events + [e])
  {
    LeadsReachable(max, events, mid);
    ReachableIsGood(mid, max);
    StepTells(mid, max, e, events);
  }

  lemma {:induction false} RunTells(max: nat, events: seq<Event>, w: World)
    requires Leads(START, max, events, w)
    ensures AllTell(w, events)
    decreases |events|
  {
    if events == [] {
      assert AllTell(START, []);
    } else {
      var n := |events| - 1;
      var mid := LastStep(START, max, events, w);
      assert AllTell(Step(mid, max, events[n]), events[..n] + [events[n]]) by {
        RunTells(max, events[..n], mid);
        TellsOnceMore(max, events[..n], events[n], mid);
      }
      SplitsAtLast(events);
    }
  }

  lemma SplitsAtLast(events: seq<Event>)
    requires events != []
    ensures events == events[..|events| - 1] + [events[|events| - 1]]
  {}

  /** What happened in the run when a call has that outcome. */
  ghost predicate Happened(events: seq<Event>, c: nat, outcome: Outcome) {
    match outcome
    case Success => DriverReturns(c, true) in events
    case DriverError => DriverReturns(c, false) in events
    case QueueError => CancelParent(c) in events && Acquire(c) !in events
    case FirstTokenTimeout => FireTimer(c) in events && SeeFirstToken(c) !in events
    case TurnTimeout => ExpireTurn(c) in events
    case ParentError => CancelParent(c) in events && Acquire(c) in events
  }

  /** In every run: a call that returned to its caller has one outcome, and the run has what it names; and
      the call gave its slot back once if it got one and is over, and not at all otherwise. */
  lemma OutcomeHappened(max: nat, events: seq<Event>, w: World, c: nat)
    requires Leads(START, max, events, w) && c in w.calls && IsRecorded(w.calls[c].pc)
    ensures var outcomes := OutcomesOf(w.shared.health, c);
            |outcomes| == 1 && Happened(events, c, outcomes[0])
    ensures Releases(events, c) == if w.calls[c].pc.Done? && Acquire(c) in events then 1 else 0
  {
    RunTells(max, events, w);
    OneOutcomeEach(w, max, c);
    ReleasedOnce(w, max, c);
  }

  lemma Play(w: World, max: nat, e: Event) returns (next: World)
    requires Reachable(w, max) && Enabled(w, max, e)
    ensures next == Step(w, max, e) && Reachable(next, max)
  {
    next := Step(w, max, e);
    var events :| Leads(START, max, events, w);
    Extend(START, max, events, w, e);
  }

  lemma {:induction false} Extend(from: World, max: nat, events: seq<Event>, to: World, e: Event)
    requires Leads(from, max, events, to) && Enabled(to, max, e)
    ensures Leads(from, max, events + [e], Step(to, max, e))
    decreases |events|
  {
    assert ([] + [e])[1..] == [];
    if events != [] {
      assert (events + [e])[1..] == events[1..] + [e];
      Extend(Step(from, max, events[0]), max, events[1..], to, e);
    }
  }

  // ---- the driver in place ------------------------------------------------

  datatype Limits = Limits(maxConcurrent: int, firstTokenTimeout: int, turnTimeout: int)

  datatype WrapError = NilDriver | InvalidUpstreamName | NilHealthTracker | InvalidLimits

  /** Wraps a driver, unless something is missing or the limits are no limits: they fail closed before any
      request is made. */
  method WrapDriver(hasDriver: bool, upstream: string, hasHealth: bool, limits: Limits)
    returns (r: Result<RuntimeDriver, WrapError>)
    ensures r.Ok? <==> && hasDriver && upstream != "" && hasHealth
                       && limits.maxConcurrent > 0 && limits.firstTokenTimeout > 0 && limits.turnTimeout > 0
                       && limits.firstTokenTimeout <= limits.turnTimeout
    ensures r.Ok? ==> r.value.View() == START.shared && r.value.maxConcurrent == limits.maxConcurrent
    ensures r.Err? ==>
              match r.error
              case NilDriver => !hasDriver
              case InvalidUpstreamName => upstream == ""
              case NilHealthTracker => !hasHealth
              case InvalidLimits =>
                || limits.maxConcurrent <= 0 || limits.firstTokenTimeout <= 0 || limits.turnTimeout <= 0
                || limits.firstTokenTimeout > limits.turnTimeout
  {
    if !hasDriver {
      return Err(NilDriver);
    }
    if upstream == "" {
      return Err(InvalidUpstreamName);
    }
    if !hasHealth {
      return Err(NilHealthTracker);
    }
    if limits.maxConcurrent <= 0 || limits.firstTokenTimeout <= 0 || limits.turnTimeout <= 0
       || limits.firstTokenTimeout > limits.turnTimeout
    {
      return Err(InvalidLimits);
    }
    var driver := new RuntimeDriver(limits.maxConcurrent);
    return Ok(driver);
  }

  class RuntimeDriver {
    const maxConcurrent: nat
    var slots: nat
    var health: seq<Record>

    ghost function View(): Shared
      reads this
    {
      Shared(slots, health)
    }

    constructor (maxConcurrent: nat)
      ensures View() == START.shared && this.maxConcurrent == maxConcurrent
    {
      this.maxConcurrent := maxConcurrent;
      slots := 0;
      health := [];
    }

    /** Waits until there is room. */
    method Acquire()
      requires slots < maxConcurrent
      modifies this
      ensures View() == Acquired(old(View()))
    {
      slots := slots + 1;
    }

    method ReleaseSlot()
      requires slots > 0
      modifies this
      ensures View() == Released(old(View()))
    {
      slots := slots - 1;
    }

    method LogOutcome(c: nat, outcome: Outcome)
      modifies this
      ensures View() == Logged(old(View()), c, outcome)
    {
      health := health + [Record(c, outcome)];
    }

    /** `finish`: the slot is free before the outcome is recorded. */
    method Finish(c: nat, ok: bool)
      requires slots > 0
      modifies this
      ensures View() == Logged(Released(old(View())), c, if ok then Success else DriverError)
    {
      ReleaseSlot();
      if !ok {
        LogOutcome(c, DriverError);
        return;
      }
      LogOutcome(c, Success);
    }

    /** `timeout`: the outcome is recorded at once and the slot stays occupied. */
    method Timeout(c: nat, cause: Outcome)
      modifies this
      ensures View() == Logged(old(View()), c, cause)
    {
      LogOutcome(c, cause);
    }
  }
}
