/** Choosing the newest whole units of a history that fit a token budget. */
module PromptSelection {
  import opened Collections
  import opened Wrappers
  import opened ChatMessages
  import opened ToolHistory

  // ---- units --------------------------------------------------------------

  /** How many tool messages a history starts with. */
  function ToolRun(history: seq<Message>): (n: nat)
    ensures n <= |history| && (forall i | 0 <= i < n :: history[i].role.Tool?)
    ensures n == |history| || !history[n].role.Tool?
  {
    if history == [] || !history[0].role.Tool? then 0 else 1 + ToolRun(history[1..])
  }

  /** A message with tool calls and all tool messages right after it belong together. */
  function UnitLength(history: seq<Message>): (n: nat)
    requires history != []
    ensures 1 <= n <= |history|
  {
    1 + (if history[0].toolCalls == [] then 0 else ToolRun(history[1..]))
  }

  /** Injections between units are skipped. */
  function Units(history: seq<Message>): seq<seq<Message>>
    decreases |history|
  {
    if history == [] then []
    else if history[0].origin.Injection? then Units(history[1..])
    else
      var n := UnitLength(history);
      [history[..n]] + Units(history[n..])
  }

  method HistoryUnits(history: seq<Message>) returns (units: seq<seq<Message>>)
    ensures units == Units(history)
  {
    units := [];
    var index := 0;
    while index < |history|
      invariant index <= |history|
      invariant units + Units(history[index..]) == Units(history)
    {
      var message := history[index];
      if message.origin.Injection? {
        InjectionSkipped(history, index);
        index := index + 1;
        continue;
      }
      var end := index + 1;
      if |message.toolCalls| > 0 {
        while end < |history| && history[end].role.Tool?
          invariant index + 1 <= end <= |history|
          invariant ToolRun(history[index + 1..]) == (end - index - 1) + ToolRun(history[end..])
        {
          RunGoesOn(history, end);
          end := end + 1;
        }
        RunEnds(history, end);
      }
      UnitAt(history, index, end);
      ConcatAssociative(units, [history[index..end]], Units(history[end..]));
      units := units + [history[index..end]];
      index := end;
    }
    assert history[index..] == [];
    assert units + [] == units;
  }

  lemma InjectionSkipped(history: seq<Message>, index: nat)
    requires index < |history| && history[index].origin.Injection?
    ensures Units(history[index..]) == Units(history[index + 1..])
  {
    assert history[index..][1..] == history[index + 1..];
  }

  lemma RunGoesOn(history: seq<Message>, end: nat)
    requires end < |history| && history[end].role.Tool?
    ensures ToolRun(history[end..]) == 1 + ToolRun(history[end + 1..])
  {
    assert history[end..][1..] == history[end + 1..];
  }

  lemma RunEnds(history: seq<Message>, end: nat)
    requires end <= |history| && (end < |history| ==> !history[end].role.Tool?)
    ensures ToolRun(history[end..]) == 0
  {}

  lemma UnitAt(history: seq<Message>, index: nat, end: nat)
    requires index < end <= |history| && !history[index].origin.Injection?
    requires end - index - 1 == if history[index].toolCalls == [] then 0 else ToolRun(history[index + 1..])
    ensures Units(history[index..]) == [history[index..end]] + Units(history[end..])
  {
    var h := history[index..];
    assert h[1..] == history[index + 1..];
    assert h[..end - index] == history[index..end] && h[end - index..] == history[end..];
  }

  // ---- units of a valid history -------------------------------------------

  /** A valid history has no injections, and its first unit is whole. */
  lemma FirstUnit(history: seq<Message>)
    requires ValidHistory(history) && InjectionsAreSystem(history) && history != []
    ensures !history[0].origin.Injection?
    ensures WholeUnit(history[..UnitLength(history)]) && ValidHistory(history[UnitLength(history)..])
  {
    var first := history[0];
    assert Accepts({}, first);
    var n := UnitLength(history);
    if first.toolCalls == [] {
      assert CallIds(first.toolCalls) == [];
      assert Next({}, first) == {};
    } else {
      var rest := history[1..];
      var k := PendingOpens(IdSet(first.toolCalls), rest);
      ToolRunIs(rest, k);
      assert n == k + 1 && history[n..] == rest[k..];
      ExchangeOf(first, rest, k);
      assert history[..n] == [first] + rest[..k];
    }
  }

  /** An answer with calls and the results that settle them are an exchange. */
  lemma ExchangeOf(first: Message, rest: seq<Message>, k: nat)
    requires Answer(first) && first.toolCalls != [] && k <= |rest|
    requires forall i | 0 <= i < k :: ToolResult(rest[i])
    requires forall i, j | 0 <= i < j < k :: rest[i].toolCallId != rest[j].toolCallId
    requires (set i | 0 <= i < k :: rest[i].toolCallId) == IdSet(first.toolCalls)
    ensures Exchange([first] + rest[..k])
  {
    var unit := [first] + rest[..k];
    assert forall i | 1 <= i < |unit| :: unit[i] == rest[i - 1];
    ShiftedUnit(unit, rest, k);
    ExchangeParts(unit);
  }

  lemma ToolRunIs(history: seq<Message>, k: nat)
    requires k <= |history| && (forall i | 0 <= i < k :: history[i].role.Tool?)
    requires k == |history| || !history[k].role.Tool?
    ensures ToolRun(history) == k
  {
    var n := ToolRun(history);
  }

  lemma ShiftedUnit(unit: seq<Message>, rest: seq<Message>, k: nat)
    requires |unit| == k + 1 && k <= |rest| && forall i | 1 <= i < |unit| :: unit[i] == rest[i - 1]
    ensures (set i | 1 <= i < |unit| :: unit[i].toolCallId) == (set i | 0 <= i < k :: rest[i].toolCallId)
  {
    forall i | 0 <= i < k
      ensures rest[i].toolCallId in (set j | 1 <= j < |unit| :: unit[j].toolCallId)
    {
      assert unit[i + 1] == rest[i];
    }
    forall i | 1 <= i < |unit|
      ensures unit[i].toolCallId in (set j | 0 <= j < k :: rest[j].toolCallId)
    {
      assert rest[i - 1] == unit[i];
    }
  }

  ghost predicate AllWhole(units: seq<seq<Message>>) {
    forall i | 0 <= i < |units| :: WholeUnit(units[i])
  }

  lemma UnitCons(unit: seq<Message>, units: seq<seq<Message>>)
    ensures Flatten([unit] + units) == unit + Flatten(units)
    ensures WholeUnit(unit) && AllWhole(units) ==> AllWhole([unit] + units)
  {
    assert ([unit] + units)[1..] == units;
  }

  lemma UnitsStep(history: seq<Message>)
    requires history != [] && !history[0].origin.Injection?
    ensures Units(history) == [history[..UnitLength(history)]] + Units(history[UnitLength(history)..])
    ensures history == history[..UnitLength(history)] + history[UnitLength(history)..]
  {}

  /** Splitting a valid history into units loses nothing, and every unit is a whole exchange or a
      plain message. */
  lemma {:induction false} UnitsAreWhole(history: seq<Message>)
    requires ValidHistory(history) && InjectionsAreSystem(history)
    ensures Flatten(Units(history)) == history && AllWhole(Units(history))
    decreases |history|
  {
    if history != [] {
      FirstUnit(history);
      UnitsStep(history);
      var unit, rest := history[..UnitLength(history)], history[UnitLength(history)..];
      RestIsSystem(history, UnitLength(history));
      UnitsAreWhole(rest);
      UnitCons(unit, Units(rest));
    }
  }

  lemma RestIsSystem(history: seq<Message>, n: nat)
    requires InjectionsAreSystem(history) && n <= |history|
    ensures InjectionsAreSystem(history[n..])
  {}

  /** The validator accepts exactly the concatenations of whole units: two descriptions of what a
      whole turn is, one by pending calls, one by grouping. */
  lemma ValidExactlyWhenWholeUnits(history: seq<Message>)
    requires InjectionsAreSystem(history)
    ensures ValidHistory(history) <==> Flatten(Units(history)) == history && AllWhole(Units(history))
  {
    if ValidHistory(history) {
      UnitsAreWhole(history);
    }
    if Flatten(Units(history)) == history && AllWhole(Units(history)) {
      WholeUnitsAreValid(Units(history));
    }
  }

  lemma WholeUnitsAreValid(units: seq<seq<Message>>)
    requires AllWhole(units)
    ensures ValidHistory(Flatten(units))
  {
    forall i | 0 <= i < |units|
      ensures ValidHistory(units[i])
    {
      WholeUnitIsValid(units[i]);
    }
    FlattenIsValid(units);
  }

  // ---- unit boundaries and pending calls ----------------------------------

  ghost predicate Boundary(units: seq<seq<Message>>, i: nat) {
    exists j | 0 <= j <= |units| :: |Flatten(units[..j])| == i
  }

  lemma {:induction false} PendingConcat(pending: set<string>, a: seq<Message>, b: seq<Message>)
    ensures PendingAfter(pending, a + b) == PendingAfter(PendingAfter(pending, a), b)
    decreases |a|
  {
    if a == [] {
      assert a + b == b;
    } else {
      assert (a + b)[0] == a[0] && (a + b)[1..] == a[1..] + b;
      PendingConcat(Next(pending, a[0]), a[1..], b);
    }
  }

  lemma {:induction false} ValidSettlesPending(pending: set<string>, messages: seq<Message>)
    requires ValidFrom(pending, messages)
    ensures PendingAfter(pending, messages) == {}
    decreases |messages|
  {
    if messages != [] {
      ValidSettlesPending(Next(pending, messages[0]), messages[1..]);
    }
  }

  /** A result that is still to come is pending until it comes. */
  lemma {:induction false} StillPending(pending: set<string>, results: seq<Message>, k: nat)
    requires k < |results| && results[k].toolCallId in pending
    requires forall i, j | 0 <= i < j < |results| :: results[i].toolCallId != results[j].toolCallId
    ensures results[k].toolCallId in PendingAfter(pending, results[..k])
    decreases k
  {
    if k > 0 {
      var rest := results[1..];
      assert results[..k][1..] == rest[..k - 1];
      assert Next(pending, results[0]) == pending - {results[0].toolCallId};
      StillPending(pending - {results[0].toolCallId}, rest, k - 1);
    }
  }

  lemma InsideUnitIsPending(unit: seq<Message>, i: nat)
    requires WholeUnit(unit) && 0 < i < |unit|
    ensures PendingAfter({}, unit[..i]) != {}
  {
    var results := unit[1..];
    assert unit[..i][1..] == results[..i - 1];
    assert results[i - 1] == unit[i];
    assert unit[i].toolCallId in (set j | 1 <= j < |unit| :: unit[j].toolCallId);
    assert forall a, b | 0 <= a < b < |results| :: results[a] == unit[a + 1] && results[b] == unit[b + 1];
    IdsByIndex(unit[0].toolCalls);
    StillPending(IdSet(unit[0].toolCalls), results, i - 1);
  }

  /** In a concatenation of whole units, the boundaries are exactly the points with no pending
      calls. */
  lemma {:induction false} BoundariesAreSettled(units: seq<seq<Message>>, i: nat)
    requires AllWhole(units) && i <= |Flatten(units)|
    ensures Boundary(units, i) <==> PendingAfter({}, Flatten(units)[..i]) == {}
    decreases |units|
  {
    var all := Flatten(units);
    if i == 0 {
      assert units[..0] == [] && all[..0] == [];
      assert |Flatten(units[..0])| == 0;
    } else {
      var first, rest := units[0], units[1..];
      if i < |first| {
        assert all[..i] == first[..i];
        InsideUnitIsPending(first, i);
        forall j | 0 <= j <= |units|
          ensures |Flatten(units[..j])| != i
        {
          if j > 0 {
            PrefixFlatten(units, j);
          }
        }
      } else {
        assert all[..i] == first + Flatten(rest)[..i - |first|];
        WholeUnitIsValid(first);
        ValidSettlesPending({}, first);
        PendingConcat({}, first, Flatten(rest)[..i - |first|]);
        BoundariesAreSettled(rest, i - |first|);
        BoundaryShift(units, i);
      }
    }
  }

  lemma PrefixFlatten(units: seq<seq<Message>>, j: nat)
    requires 0 < j <= |units|
    ensures Flatten(units[..j]) == units[0] + Flatten(units[1..][..j - 1])
  {
    assert units[..j][0] == units[0] && units[..j][1..] == units[1..][..j - 1];
  }

  lemma BoundaryShift(units: seq<seq<Message>>, i: nat)
    requires units != [] && units[0] != [] && i >= |units[0]|
    ensures Boundary(units, i) <==> Boundary(units[1..], i - |units[0]|)
  {
    assert units[..0] == [];
    if Boundary(units, i) {
      var j :| 0 <= j <= |units| && |Flatten(units[..j])| == i;
      PrefixFlatten(units, j);
      assert |Flatten(units[1..][..j - 1])| == i - |units[0]|;
    }
    if Boundary(units[1..], i - |units[0]|) {
      var j :| 0 <= j <= |units[1..]| && |Flatten(units[1..][..j])| == i - |units[0]|;
      PrefixFlatten(units, j + 1);
      assert |Flatten(units[..j + 1])| == i;
    }
  }

  /** For a valid history whose injections are system messages, unit boundaries are exactly the
      points with no pending calls. */
  lemma UnitBoundariesAreSettledPoints(history: seq<Message>, i: nat)
    requires ValidHistory(history) && InjectionsAreSystem(history) && i <= |history|
    ensures Boundary(Units(history), i) <==> PendingAfter({}, history[..i]) == {}
  {
    UnitsAreWhole(history);
    BoundariesAreSettled(Units(history), i);
  }

  // ---- selection under a budget -------------------------------------------

  /** Counting tokens can fail, and is otherwise unknown. */
  datatype Counter = Counter(
    text: string -> Option<int>,
    history: seq<Message> -> Option<int>,
    prompt: (string, seq<Message>, string) -> Option<int>)

  datatype PromptError = CountCandidate | CountSystem | CountHistory | CountCurrent | CountSelected

  datatype PromptContext = PromptContext(
    budgetTokens: int, systemTokens: int, historyTokens: int, currentMessageTokens: int, totalTokens: int,
    omittedMessages: int, omittedTurns: int, retainedMessages: int, retainedTurns: int,
    history: seq<Message>)

  /** What is asked: the fixed parts of the prompt and the budget. */
  datatype Request = Request(system: string, user: string, budget: int)

  /** The last `k` units. */
  function Newest(units: seq<seq<Message>>, k: nat): seq<seq<Message>>
    requires k <= |units|
  {
    units[|units| - k..]
  }

  function CostOf(counter: Counter, req: Request, units: seq<seq<Message>>, k: nat): Option<int>
    requires k <= |units|
  {
    counter.prompt(req.system, Flatten(Newest(units, k)), req.user)
  }

  predicate Fits(counter: Counter, req: Request, units: seq<seq<Message>>, k: nat)
    requires k <= |units|
  {
    var cost := CostOf(counter, req, units, k);
    cost.Some? && cost.value <= req.budget
  }

  /** All of the shorter suffixes tried fit, and the next longer one does not. */
  ghost predicate Selects(counter: Counter, req: Request, units: seq<seq<Message>>, k: nat) {
    && k <= |units|
    && (forall j | 1 <= j <= k :: Fits(counter, req, units, j))
    && (k < |units| ==> CostOf(counter, req, units, k + 1).Some? && !Fits(counter, req, units, k + 1))
  }

  /** Trying ever longer suffixes, with `k` units kept so far; nothing if a count fails. */
  function Kept(counter: Counter, req: Request, units: seq<seq<Message>>, k: nat): (kept: Option<nat>)
    requires k <= |units|
    ensures kept.Some? ==> k <= kept.value <= |units|
    decreases |units| - k
  {
    if k == |units| then Some(k)
    else
      var cost := CostOf(counter, req, units, k + 1);
      if cost.None? then None
      else if cost.value > req.budget then Some(k)
      else Kept(counter, req, units, k + 1)
  }

  /** When the next longer suffix does not fit, or cannot be counted, no longer one is selected. */
  lemma NothingLongerSelected(counter: Counter, req: Request, units: seq<seq<Message>>, j: nat, k: nat)
    requires j < |units| && j <= k && !Fits(counter, req, units, j + 1)
    requires forall i | 1 <= i <= j :: Fits(counter, req, units, i)
    ensures Selects(counter, req, units, k) <==> k == j && CostOf(counter, req, units, j + 1).Some?
  {
    if k > j {
      TooLong(counter, req, units, j, k);
    }
  }

  lemma TooLong(counter: Counter, req: Request, units: seq<seq<Message>>, j: nat, k: nat)
    requires j < |units| && j < k && !Fits(counter, req, units, j + 1)
    ensures !Selects(counter, req, units, k)
  {}

  lemma {:induction false} KeptSelects(counter: Counter, req: Request, units: seq<seq<Message>>, j: nat, k: nat)
    requires j <= |units|
    requires forall i | 1 <= i <= j :: Fits(counter, req, units, i)
    ensures Kept(counter, req, units, j) == Some(k) <==> j <= k && Selects(counter, req, units, k)
    decreases |units| - j
  {
    if j < |units| {
      if Fits(counter, req, units, j + 1) {
        KeptSelects(counter, req, units, j + 1, k);
        if k == j {
          assert !Selects(counter, req, units, k);
        }
      } else if j <= k {
        NothingLongerSelected(counter, req, units, j, k);
      }
    }
  }

  /** What is kept is the one suffix all of whose non-empty shorter suffixes fit, as it does itself,
      while the next longer one does not. */
  lemma KeptExactly(counter: Counter, req: Request, units: seq<seq<Message>>, k: nat)
    ensures Kept(counter, req, units, 0) == Some(k) <==> Selects(counter, req, units, k)
  {
    KeptSelects(counter, req, units, 0, k);
  }

  function TotalLength(units: seq<seq<Message>>): nat {
    if units == [] then 0 else |units[0]| + TotalLength(units[1..])
  }

  lemma {:induction false} FlattenLength(units: seq<seq<Message>>)
    ensures |Flatten(units)| == TotalLength(units)
  {
    if units != [] {
      FlattenLength(units[1..]);
    }
  }

  lemma {:induction false} TotalLengthSnoc(units: seq<seq<Message>>, unit: seq<Message>)
    ensures TotalLength(units + [unit]) == TotalLength(units) + |unit|
  {
    FlattenLength(units);
    FlattenLength(units + [unit]);
    FlattenConcat(units, [unit]);
    assert [unit][1..] == [];
  }

  lemma NewestStep(units: seq<seq<Message>>, k: nat)
    requires k < |units|
    ensures Flatten(Newest(units, k + 1)) == units[|units| - k - 1] + Flatten(Newest(units, k))
  {
    UnitCons(units[|units| - k - 1], Newest(units, k));
    assert Newest(units, k + 1) == [units[|units| - k - 1]] + Newest(units, k);
  }

  ghost predicate Describes(counter: Counter, req: Request, history: seq<Message>, ctx: PromptContext) {
    && ctx.history == history
    && ctx.budgetTokens == req.budget
    && counter.text(req.system) == Some(ctx.systemTokens)
    && counter.history(history) == Some(ctx.historyTokens)
    && counter.text(req.user) == Some(ctx.currentMessageTokens)
    && counter.prompt(req.system, history, req.user) == Some(ctx.totalTokens)
    && ctx.retainedMessages == |history| && ctx.retainedTurns == |Units(history)|
  }

  ghost predicate Reports(counter: Counter, req: Request, units: seq<seq<Message>>, k: nat, ctx: PromptContext)
    requires k <= |units|
  {
    && Describes(counter, req, Flatten(Newest(units, k)), ctx)
    && ctx.omittedMessages == TotalLength(units[..|units| - k]) && ctx.omittedTurns == |units| - k
  }

  ghost predicate CountFails(counter: Counter, req: Request, history: seq<Message>, error: PromptError) {
    match error
    case CountCandidate => false
    case CountSystem => counter.text(req.system).None?
    case CountHistory => counter.history(history).None?
    case CountCurrent => counter.text(req.user).None?
    case CountSelected => counter.prompt(req.system, history, req.user).None?
  }

  method NewPromptContext(counter: Counter, req: Request, history: seq<Message>,
                          omittedMessages: int, omittedTurns: int)
    returns (r: Result<PromptContext, PromptError>)
    ensures r.Ok? ==> Describes(counter, req, history, r.value)
    ensures r.Ok? ==> r.value.omittedMessages == omittedMessages && r.value.omittedTurns == omittedTurns
    ensures r.Err? ==> CountFails(counter, req, history, r.error)
  {
    var systemTokens := counter.text(req.system);
    if systemTokens.None? {
      return Err(CountSystem);
    }
    var historyTokens := counter.history(history);
    if historyTokens.None? {
      return Err(CountHistory);
    }
    var currentTokens := counter.text(req.user);
    if currentTokens.None? {
      return Err(CountCurrent);
    }
    var totalTokens := counter.prompt(req.system, history, req.user);
    if totalTokens.None? {
      return Err(CountSelected);
    }
    var units := HistoryUnits(history);
    return Ok(PromptContext(req.budget, systemTokens.value, historyTokens.value, currentTokens.value,
                            totalTokens.value, omittedMessages, omittedTurns, |history|, |units|, history));
  }

  /** The newest `k` units are retained, and nothing has stopped the selection yet. */
  ghost predicate Selecting(counter: Counter, req: Request, units: seq<seq<Message>>, k: nat, retained: seq<Message>) {
    && k <= |units|
    && retained == Flatten(Newest(units, k))
    && Kept(counter, req, units, 0) == Kept(counter, req, units, k)
  }

  lemma CandidateDecides(counter: Counter, req: Request, units: seq<seq<Message>>, k: nat, retained: seq<Message>)
    requires Selecting(counter, req, units, k, retained) && k < |units|
    ensures var candidate := units[|units| - 1 - k] + retained;
            var total := counter.prompt(req.system, candidate, req.user);
            if total.None? then Kept(counter, req, units, 0).None?
            else if total.value > req.budget then Kept(counter, req, units, 0) == Some(k)
            else Selecting(counter, req, units, k + 1, candidate)
  {
    NewestStep(units, k);
  }

  /** Keeps the newest units that fit, stopping at the first that does not. */
  method SelectPromptHistory(counter: Counter, req: Request, history: seq<Message>)
    returns (r: Result<PromptContext, PromptError>)
    ensures r == Err(CountCandidate) <==> Kept(counter, req, Units(history), 0).None?
    ensures r.Ok? ==> Reports(counter, req, Units(history), Kept(counter, req, Units(history), 0).value, r.value)
    ensures r.Err? && r.error != CountCandidate ==>
              var kept := Kept(counter, req, Units(history), 0).value;
              CountFails(counter, req, Flatten(Newest(Units(history), kept)), r.error)
  {
    var units := HistoryUnits(history);
    var retained: seq<Message> := [];
    var omittedMessages, omittedTurns := 0, 0;
    ghost var k := 0;
    var index := |units| - 1;
    while index >= 0
      invariant index == |units| - 1 - k && Selecting(counter, req, units, k, retained)
      invariant omittedMessages == 0 && omittedTurns == 0
    {
      var candidate := units[index] + retained;
      CandidateDecides(counter, req, units, k, retained);
      var total := counter.prompt(req.system, candidate, req.user);
      if total.None? {
        return Err(CountCandidate);
      }
      if total.value > req.budget {
        omittedMessages := CountMessages(units[..index + 1]);
        omittedTurns := index + 1;
        break;
      }
      retained := candidate;
      index := index - 1;
      k := k + 1;
    }
    NoneLeft(units, index + 1);
    r := NewPromptContext(counter, req, retained, omittedMessages, omittedTurns);
  }

  lemma NoneLeft(units: seq<seq<Message>>, n: int)
    requires 0 <= n <= |units|
    ensures n == 0 ==> TotalLength(units[..n]) == 0
  {}

  method CountMessages(units: seq<seq<Message>>) returns (n: nat)
    ensures n == TotalLength(units)
  {
    n := 0;
    for i := 0 to |units|
      invariant n == TotalLength(units[..i])
    {
      assert units[..i + 1] == units[..i] + [units[i]];
      TotalLengthSnoc(units[..i], units[i]);
      n := n + |units[i]|;
    }
    assert units[..|units|] == units;
  }

  // ---- what selection promises --------------------------------------------

  lemma {:induction false} LargerBudgetFits(counter: Counter, small: Request, large: Request,
                                            units: seq<seq<Message>>, i: nat)
    requires small.system == large.system && small.user == large.user && small.budget <= large.budget
    requires i <= |units|
    requires Kept(counter, small, units, i).Some? && Kept(counter, large, units, i).Some?
    ensures i <= Kept(counter, small, units, i).value <= Kept(counter, large, units, i).value <= |units|
    decreases |units| - i
  {
    if i < |units| {
      assert CostOf(counter, small, units, i + 1) == CostOf(counter, large, units, i + 1);
      if Fits(counter, small, units, i + 1) {
        LargerBudgetFits(counter, small, large, units, i + 1);
      } else if Fits(counter, large, units, i + 1) {
        LargerBudgetFits(counter, large, large, units, i + 1);
      }
    }
  }

  /** A larger budget never drops a unit kept by a smaller one. */
  lemma LargerBudgetKeepsMore(counter: Counter, small: Request, large: Request, units: seq<seq<Message>>,
                              j: nat, k: nat)
    requires small.system == large.system && small.user == large.user && small.budget <= large.budget
    requires Kept(counter, small, units, 0) == Some(j) && Kept(counter, large, units, 0) == Some(k)
    ensures j <= k <= |units|
    ensures exists dropped :: Flatten(Newest(units, k)) == dropped + Flatten(Newest(units, j))
  {
    LargerBudgetFits(counter, small, large, units, 0);
    FlattenConcat(units[|units| - k..|units| - j], Newest(units, j));
    assert Newest(units, k) == units[|units| - k..|units| - j] + Newest(units, j);
  }

  /** The messages a history holds apart from injections. */
  function WithoutInjections(history: seq<Message>): seq<Message> {
    if history == [] then []
    else (if history[0].origin.Injection? then [] else [history[0]]) + WithoutInjections(history[1..])
  }

  lemma {:induction false} WithoutInjectionsConcat(a: seq<Message>, b: seq<Message>)
    ensures WithoutInjections(a + b) == WithoutInjections(a) + WithoutInjections(b)
    decreases |a|
  {
    if a == [] {
      assert a + b == b;
    } else {
      assert (a + b)[0] == a[0] && (a + b)[1..] == a[1..] + b;
      WithoutInjectionsConcat(a[1..], b);
      var head := if a[0].origin.Injection? then [] else [a[0]];
      ConcatAssociative(head, WithoutInjections(a[1..]), WithoutInjections(b));
    }
  }

  lemma {:induction false} NothingToDrop(messages: seq<Message>)
    requires NoInjections(messages)
    ensures WithoutInjections(messages) == messages
  {
    if messages != [] {
      NothingToDrop(messages[1..]);
    }
  }

  /** Splitting into units drops the injections and nothing else. */
  lemma {:induction false} UnitsDropOnlyInjections(history: seq<Message>)
    requires InjectionsAreSystem(history)
    ensures Flatten(Units(history)) == WithoutInjections(history)
    decreases |history|
  {
    if history != [] {
      if history[0].origin.Injection? {
        UnitsDropOnlyInjections(history[1..]);
      } else {
        var n := UnitLength(history);
        UnitsDropOnlyInjections(history[n..]);
        UnitCons(history[..n], Units(history[n..]));
        assert history == history[..n] + history[n..];
        WithoutInjectionsConcat(history[..n], history[n..]);
        UnitHasNoInjection(history);
        NothingToDrop(history[..n]);
      }
    }
  }

  lemma UnitHasNoInjection(history: seq<Message>)
    requires InjectionsAreSystem(history) && history != [] && !history[0].origin.Injection?
    ensures NoInjections(history[..UnitLength(history)])
  {
    assert forall i | 1 <= i < UnitLength(history) :: history[i] == history[1..][i - 1];
  }

  // ---- splitting the retained messages again ------------------------------

  /** What a unit looks like, whatever history it comes from. */
  predicate UnitShape(unit: seq<Message>) {
    && unit != [] && NoInjections(unit)
    && (if unit[0].toolCalls == [] then |unit| == 1 else forall i | 1 <= i < |unit| :: unit[i].role.Tool?)
  }

  ghost predicate AllShaped(units: seq<seq<Message>>) {
    forall i | 0 <= i < |units| :: UnitShape(units[i])
  }

  /** Two units that join when nothing stands between them: a call, and what starts as a result. */
  predicate Glued(a: seq<Message>, b: seq<Message>) {
    a != [] && b != [] && a[0].toolCalls != [] && b[0].role.Tool?
  }

  ghost predicate NoneGlued(units: seq<seq<Message>>) {
    forall i, j | 0 <= i < |units| && j == i + 1 && j < |units| :: !Glued(units[i], units[j])
  }

  lemma {:induction false} UnitsAreShaped(history: seq<Message>)
    requires InjectionsAreSystem(history)
    ensures AllShaped(Units(history))
    decreases |history|
  {
    if history == [] {
    } else if history[0].origin.Injection? {
      UnitsAreShaped(history[1..]);
    } else {
      UnitsStep(history);
      UnitHasNoInjection(history);
      var n := UnitLength(history);
      RestIsSystem(history, n);
      UnitsAreShaped(history[n..]);
      assert forall i | 1 <= i < n :: history[i] == history[1..][i - 1];
    }
  }

  lemma {:induction false} ToolRunConcat(a: seq<Message>, b: seq<Message>)
    requires forall i | 0 <= i < |a| :: a[i].role.Tool?
    ensures ToolRun(a + b) == |a| + ToolRun(b)
    decreases |a|
  {
    if a == [] {
      assert a + b == b;
    } else {
      assert (a + b)[0] == a[0] && (a + b)[1..] == a[1..] + b;
      ToolRunConcat(a[1..], b);
    }
  }

  /** Leading units that start on a tool message consist of tool messages. */
  lemma {:induction false} LeadingResults(units: seq<seq<Message>>) returns (j: nat)
    requires AllShaped(units)
    ensures j <= |units| && ToolRun(Flatten(units)) == |Flatten(units[..j])|
    ensures j >= 1 <==> units != [] && units[0][0].role.Tool?
    decreases |units|
  {
    if units == [] || !units[0][0].role.Tool? {
      j := 0;
      assert Flatten(units) != [] ==> Flatten(units)[0] == units[0][0];
    } else {
      var m := LeadingResults(units[1..]);
      j := m + 1;
      ToolRunConcat(units[0], Flatten(units[1..]));
      PrefixFlatten(units, j);
    }
  }

  lemma {:induction false} ShapedFlatten(units: seq<seq<Message>>)
    requires AllShaped(units)
    ensures NoInjections(Flatten(units))
  {
    if units != [] {
      ShapedFlatten(units[1..]);
    }
  }

  lemma HeadUnitLength(first: seq<Message>, rest: seq<Message>)
    requires UnitShape(first)
    ensures UnitLength(first + rest) == if first[0].toolCalls == [] then |first| else |first| + ToolRun(rest)
  {
    assert (first + rest)[0] == first[0] && (first + rest)[1..] == first[1..] + rest;
    if first[0].toolCalls != [] {
      ToolRunConcat(first[1..], rest);
    }
  }

  lemma CutAfter(first: seq<Message>, middle: seq<Message>, last: seq<Message>)
    ensures var all := first + (middle + last);
            var n := |first| + |middle|;
            all[..n] == first + middle && all[n..] == last
  {}

  /** A call absorbs the units after it that start on a tool message. */
  lemma FirstUnitAbsorbs(units: seq<seq<Message>>) returns (j: nat)
    requires AllShaped(units) && units != []
    ensures j <= |units| - 1
    ensures j >= 1 <==> |units| >= 2 && Glued(units[0], units[1])
    ensures Units(Flatten(units)) == [units[0] + Flatten(units[1..][..j])] + Units(Flatten(units[1..][j..]))
  {
    var first, rest := units[0], units[1..];
    ShapedFlatten(units);
    HeadUnitLength(first, Flatten(rest));
    if first[0].toolCalls == [] {
      j := 0;
    } else {
      j := LeadingResults(rest);
    }
    assert rest == rest[..j] + rest[j..];
    FlattenConcat(rest[..j], rest[j..]);
    CutAfter(first, Flatten(rest[..j]), Flatten(rest[j..]));
    UnitsStep(Flatten(units));
  }

  lemma FirstUnitAlone(units: seq<seq<Message>>)
    requires units != []
    ensures [units[0] + Flatten(units[1..][..0])] + units[1..] == units
  {
    assert units[1..][..0] == [] && units[0] + [] == units[0];
  }

  /** Splitting a concatenation of units again gives the units back unless two of them are glued;
      then there are fewer. */
  lemma {:induction false} Resplit(units: seq<seq<Message>>)
    requires AllShaped(units)
    ensures if NoneGlued(units) then Units(Flatten(units)) == units else |Units(Flatten(units))| < |units|
    decreases |units|
  {
    if units != [] {
      var j := FirstUnitAbsorbs(units);
      Resplit(units[1..][j..]);
      if j == 0 {
        assert units[1..][0..] == units[1..];
        GluedInRest(units);
        FirstUnitAlone(units);
      } else {
        assert Glued(units[0], units[1]);
      }
    }
  }

  lemma GluedInRest(units: seq<seq<Message>>)
    requires units != [] && (|units| >= 2 ==> !Glued(units[0], units[1]))
    ensures NoneGlued(units) <==> NoneGlued(units[1..])
  {
    var rest := units[1..];
    assert forall i | 0 <= i < |rest| :: rest[i] == units[i + 1];
    if NoneGlued(rest) {
      forall i, j | 0 <= i < |units| && j == i + 1 && j < |units|
        ensures !Glued(units[i], units[j])
      {
        if i > 0 {
          assert !Glued(rest[i - 1], rest[j - 1]);
        }
      }
    }
    if NoneGlued(units) {
      forall i, j | 0 <= i < |rest| && j == i + 1 && j < |rest|
        ensures !Glued(rest[i], rest[j])
      {
        assert !Glued(units[i + 1], units[j + 1]);
      }
    }
  }

  /** Re-splitting the retained messages gives the retained units, and as many of them, exactly when
      no two adjacent ones are glued: no call is followed by a unit that starts on a tool message. */
  lemma NewestResplitsExactly(history: seq<Message>, k: nat)
    requires InjectionsAreSystem(history) && k <= |Units(history)|
    ensures var kept := Newest(Units(history), k);
            && (Units(Flatten(kept)) == kept <==> NoneGlued(kept))
            && (|Units(Flatten(kept))| == k <==> NoneGlued(kept))
  {
    UnitsAreShaped(history);
    Resplit(Newest(Units(history), k));
  }

  /** Without injections nothing is glued: a call's unit takes every tool message after it. */
  lemma {:induction false} NothingGluedWithoutInjections(history: seq<Message>)
    requires NoInjections(history)
    ensures NoneGlued(Units(history))
    decreases |history|
  {
    if history != [] {
      var n := UnitLength(history);
      UnitsStep(history);
      NothingGluedWithoutInjections(history[n..]);
      assert history[0].toolCalls != [] && n < |history| ==> history[n] == history[1..][n - 1];
      assert history[n..] != [] ==> Units(history[n..])[0][0] == history[n];
      assert Units(history)[1..] == Units(history[n..]);
      GluedInRest(Units(history));
    }
  }

  /** So then re-splitting the retained messages always gives the retained units. */
  lemma NewestResplits(history: seq<Message>, k: nat)
    requires NoInjections(history) && k <= |Units(history)|
    ensures Units(Flatten(Newest(Units(history), k))) == Newest(Units(history), k)
  {
    var units := Units(history);
    NothingGluedWithoutInjections(history);
    NewestResplitsExactly(history, k);
    assert forall i | 0 <= i < k :: Newest(units, k)[i] == units[|units| - k + i];
  }

  /** Omitted and retained messages are all the messages that are not injections. Omitted and
      retained turns are all the units exactly when no two of the retained units are glued. */
  lemma TotalsAddUpExactly(counter: Counter, req: Request, history: seq<Message>, k: nat, ctx: PromptContext)
    requires InjectionsAreSystem(history) && k <= |Units(history)|
    requires Reports(counter, req, Units(history), k, ctx)
    ensures ctx.omittedMessages + ctx.retainedMessages == |WithoutInjections(history)|
    ensures ctx.omittedTurns + ctx.retainedTurns == |Units(history)| <==> NoneGlued(Newest(Units(history), k))
    ensures ctx.retainedTurns == k <==> NoneGlued(Newest(Units(history), k))
  {
    var units := Units(history);
    UnitsDropOnlyInjections(history);
    assert units == units[..|units| - k] + Newest(units, k);
    FlattenConcat(units[..|units| - k], Newest(units, k));
    FlattenLength(units[..|units| - k]);
    NewestResplitsExactly(history, k);
  }

  lemma {:induction false} ValidHasNoInjections(pending: set<string>, history: seq<Message>)
    requires ValidFrom(pending, history) && InjectionsAreSystem(history)
    ensures NoInjections(history)
    decreases |history|
  {
    if history != [] {
      RestIsSystem(history, 1);
      ValidHasNoInjections(Next(pending, history[0]), history[1..]);
      assert forall i | 1 <= i < |history| :: history[i] == history[1..][i - 1];
    }
  }

  /** For a valid history, as loading gives it, every total adds up. */
  lemma ValidTotalsAddUp(counter: Counter, req: Request, history: seq<Message>, k: nat, ctx: PromptContext)
    requires ValidHistory(history) && InjectionsAreSystem(history) && k <= |Units(history)|
    requires Reports(counter, req, Units(history), k, ctx)
    ensures NoInjections(history)
    ensures ctx.omittedMessages + ctx.retainedMessages == |history|
    ensures ctx.retainedTurns == k && ctx.omittedTurns + ctx.retainedTurns == |Units(history)|
  {
    ValidHasNoInjections({}, history);
    NothingToDrop(history);
    TotalsAddUpExactly(counter, req, history, k, ctx);
    UnitsAreWhole(history);
    NewestOfWhole(Units(history), k);
    WholeUnitsAreNotGlued(Newest(Units(history), k));
  }

  lemma WholeUnitsAreNotGlued(units: seq<seq<Message>>)
    requires AllWhole(units)
    ensures NoneGlued(units)
  {
    forall i, j | 0 <= i < |units| && j == i + 1 && j < |units|
      ensures !Glued(units[i], units[j])
    {
      assert WholeUnit(units[j]);
    }
  }

  lemma {:induction false} NewestOfWhole(units: seq<seq<Message>>, k: nat)
    requires AllWhole(units) && k <= |units|
    ensures AllWhole(Newest(units, k))
  {}

  /** Whatever the budget, what is selected from a valid history passes the validator too. */
  lemma SelectionIsValid(counter: Counter, req: Request, history: seq<Message>, k: nat, ctx: PromptContext)
    requires ValidHistory(history) && InjectionsAreSystem(history) && k <= |Units(history)|
    requires Reports(counter, req, Units(history), k, ctx)
    ensures ValidHistory(ctx.history)
  {
    UnitsAreWhole(history);
    NewestOfWhole(Units(history), k);
    WholeUnitsAreValid(Newest(Units(history), k));
  }
}
