/** Bounded retries with exponential backoff. Durations are whole nanoseconds; floating point
    factors are reals. */
module Rebound {
  import opened Collections
  import opened Wrappers

  const MINIMUM_JITTER_FACTOR: real := 0.5
  const MAXIMUM_JITTER_FACTOR: real := 1.0

  /** `retryAfter` extracts a delay the server asked for; `None` as candidate is a nil error. */
  datatype Config<!E> = Config(
    maxAttempts: int,
    initialDelay: int,
    delayMultiplier: real,
    maximumDelay: int,
    maximumElapsed: int,
    jitter: bool,
    retryAfter: Option<E -> Option<int>>,
    nonRetryable: seq<Option<E>>)

  predicate Validated<E>(cfg: Config<E>) {
    && cfg.maxAttempts > 0 && cfg.initialDelay > 0 && cfg.maximumDelay > 0
    && cfg.delayMultiplier > 0.0
    && cfg.maximumDelay >= cfg.initialDelay && cfg.maximumElapsed > 0
  }

  // ---- delays -------------------------------------------------------------

  /** To the nearest whole number, halves up: the values rounded here are not negative. */
  function Round(x: real): int {
    (x + 0.5).Floor
  }

  function Power(x: real, n: nat): real {
    if n == 0 then 1.0 else x * Power(x, n - 1)
  }

  function Min(a: int, b: int): int {
    if a <= b then a else b
  }

  /** The documented delay before retry number `attempt`. */
  function Geometric(attempt: int, initialDelay: int, multiplier: real, maximumDelay: int): int
    requires attempt >= 1
  {
    Min(maximumDelay, Round(initialDelay as real * Power(multiplier, attempt - 1)))
  }

  /** What the loop computes: at an initial delay equal to the maximum it never multiplies. */
  function Backoff(attempt: int, initialDelay: int, multiplier: real, maximumDelay: int): int
    requires attempt >= 1
  {
    if initialDelay == maximumDelay then maximumDelay
    else Geometric(attempt, initialDelay, multiplier, maximumDelay)
  }

  lemma {:induction false} PowerPositive(x: real, n: nat)
    requires x > 0.0
    ensures Power(x, n) > 0.0
  {
    if n > 0 {
      PowerPositive(x, n - 1);
    }
  }

  lemma {:induction false} PowerStep(initial: real, x: real, n: nat)
    ensures initial * Power(x, n + 1) == initial * Power(x, n) * x
  {}

  /** Once the product has reached the maximum, further factors of at least one keep it there. */
  lemma {:induction false} GrowthStays(initial: real, x: real, n: nat, m: nat, maximum: real)
    requires n <= m && x >= 1.0 && maximum > 0.0 && initial * Power(x, n) >= maximum
    ensures initial * Power(x, m) >= maximum
    decreases m
  {
    if n < m {
      GrowthStays(initial, x, n, m - 1, maximum);
      PowerStep(initial, x, m - 1);
      ScaledUp(initial * Power(x, m - 1), x);
    }
  }

  lemma ScaledUp(y: real, x: real)
    requires y >= 0.0 && x >= 1.0
    ensures y * x >= y
  {
    assert y * (x - 1.0) >= 0.0;
  }

  lemma ScaledDown(y: real, x: real)
    requires y > 0.0 && 0.0 < x < 1.0
    ensures 0.0 < y * x < y
  {
    assert y * (1.0 - x) > 0.0;
  }

  /** The first product past the maximum settles every later delay. */
  lemma ReachedMaximum(initialDelay: int, multiplier: real, retry: nat, attempt: int, maximumDelay: int)
    requires 1 <= retry < attempt && 0 < initialDelay < maximumDelay && multiplier > 0.0
    requires initialDelay as real * Power(multiplier, retry - 1) < maximumDelay as real
    requires initialDelay as real * Power(multiplier, retry) >= maximumDelay as real
    ensures Backoff(attempt, initialDelay, multiplier, maximumDelay) == maximumDelay
  {
    var delay := initialDelay as real * Power(multiplier, retry - 1);
    PowerStep(initialDelay as real, multiplier, retry - 1);
    assert multiplier >= 1.0 by {
      if multiplier < 1.0 {
        PowerPositive(multiplier, retry - 1);
        assert delay > 0.0;
        ScaledDown(delay, multiplier);
      }
    }
    GrowthStays(initialDelay as real, multiplier, retry, attempt - 1, maximumDelay as real);
  }

  method ExponentialDelay(attempt: int, initialDelay: int, multiplier: real, maximumDelay: int) returns (r: int)
    requires attempt >= 1 && initialDelay > 0 && multiplier > 0.0 && initialDelay <= maximumDelay
    ensures r == Backoff(attempt, initialDelay, multiplier, maximumDelay)
  {
    var delay := initialDelay as real;
    var maximum := maximumDelay as real;
    var retry := 1;
    while retry < attempt && delay < maximum
      invariant 1 <= retry <= attempt && delay > 0.0
      invariant delay == initialDelay as real * Power(multiplier, retry - 1)
      invariant initialDelay < maximumDelay ==> delay < maximum
      invariant initialDelay == maximumDelay ==> retry == 1
    {
      var nextDelay := delay * multiplier;
      PowerStep(initialDelay as real, multiplier, retry - 1);
      if nextDelay >= maximum {
        ReachedMaximum(initialDelay, multiplier, retry, attempt, maximumDelay);
        return maximumDelay;
      }
      assert nextDelay > 0.0;
      delay := nextDelay;
      retry := retry + 1;
    }
    r := Min(Round(delay), maximumDelay);
  }

  /** For every validated configuration with a multiplier of at least one, the delay is the
      documented one. */
  lemma GrowingDelayIsGeometric(attempt: int, initialDelay: int, multiplier: real, maximumDelay: int)
    requires attempt >= 1 && 0 < initialDelay <= maximumDelay && multiplier >= 1.0
    ensures Backoff(attempt, initialDelay, multiplier, maximumDelay)
         == Geometric(attempt, initialDelay, multiplier, maximumDelay)
  {
    if initialDelay == maximumDelay {
      assert initialDelay as real * Power(multiplier, 0) == initialDelay as real;
      GrowthStays(initialDelay as real, multiplier, 0, attempt - 1, maximumDelay as real);
    }
  }

  /** A shrinking multiplier is ignored when the initial delay already is the maximum: the delay is
      the documented one exactly when that is not the case, or rounding hides the difference. */
  lemma ShrinkingDelayIsGeometric(attempt: int, initialDelay: int, multiplier: real, maximumDelay: int)
    requires attempt >= 1 && 0 < initialDelay <= maximumDelay && 0.0 < multiplier < 1.0
    ensures Backoff(attempt, initialDelay, multiplier, maximumDelay)
         == Geometric(attempt, initialDelay, multiplier, maximumDelay)
       <==> initialDelay < maximumDelay
            || initialDelay as real * Power(multiplier, attempt - 1) >= maximumDelay as real - 0.5
  {}

  /** Halving from a maximum of ten: the second delay stays ten where five is documented. */
  lemma ShrinkingIgnoredExample()
    ensures Backoff(2, 10, 0.5, 10) == 10 && Geometric(2, 10, 0.5, 10) == 5
  {
    assert Power(0.5, 1) == 0.5 * Power(0.5, 0) == 0.5;
  }

  lemma BackoffBounds(attempt: int, initialDelay: int, multiplier: real, maximumDelay: int)
    requires attempt >= 1 && 0 < initialDelay <= maximumDelay && multiplier > 0.0
    ensures 0 <= Backoff(attempt, initialDelay, multiplier, maximumDelay) <= maximumDelay
  {
    PowerPositive(multiplier, attempt - 1);
    assert initialDelay as real * Power(multiplier, attempt - 1) > 0.0;
  }

  function BoundedRandom(random: real): real {
    if random < 0.0 then 0.0 else if random > 1.0 then 1.0 else random
  }

  function JitterFactor(random: real): (factor: real)
    ensures MINIMUM_JITTER_FACTOR <= factor <= MAXIMUM_JITTER_FACTOR
  {
    MINIMUM_JITTER_FACTOR + (MAXIMUM_JITTER_FACTOR - MINIMUM_JITTER_FACTOR) * BoundedRandom(random)
  }

  /** Equal jitter: the product is cut to whole nanoseconds. */
  function Jittered(delay: int, random: real): int {
    (delay as real * JitterFactor(random)).Floor
  }

  lemma JitterBounds(delay: int, random: real)
    requires delay >= 0
    ensures delay / 2 <= Jittered(delay, random) <= delay
  {
    ScaledFloor(delay, JitterFactor(random));
  }

  lemma ScaledFloor(delay: int, factor: real)
    requires delay >= 0 && 0.5 <= factor <= 1.0
    ensures delay / 2 <= (delay as real * factor).Floor <= delay
  {
    var product := delay as real * factor;
    Scaled(delay as real, factor, product);
    JitterFloor(delay, product);
  }

  lemma JitterFloor(delay: int, product: real)
    requires delay >= 0 && delay as real * 0.5 <= product <= delay as real
    ensures delay / 2 <= product.Floor <= delay
  {
    HalfBelow(delay);
    FloorBetween(product, delay / 2, delay);
  }

  lemma HalfBelow(delay: int)
    requires delay >= 0
    ensures (delay / 2) as real <= delay as real * 0.5
  {}

  lemma Product(x: real, y: real)
    requires x >= 0.0 && y >= 0.0
    ensures x * y >= 0.0
  {}

  lemma Scaled(y: real, factor: real, product: real)
    requires y >= 0.0 && 0.5 <= factor <= 1.0 && product == y * factor
    ensures y * 0.5 <= product <= y
  {
    Product(y, factor - 0.5);
    Product(y, 1.0 - factor);
    assert y * (factor - 0.5) == y * factor - y * 0.5;
    assert y * (1.0 - factor) == y - y * factor;
  }

  lemma FloorBetween(x: real, lo: int, hi: int)
    requires lo as real <= x <= hi as real
    ensures lo <= x.Floor <= hi
  {}

  // ---- one attempt --------------------------------------------------------

  datatype Attempt<+E> = Attempt(number: int, error: Option<E>, retryDelay: int)

  datatype Outcome<+E> =
    | Cancelled
    | Succeeded
    | NotRetryable(error: E)
    | Exhausted(attempts: int, cause: Option<E>)
    | WaitInterrupted

  datatype Decision<+E> = Decision(attempt: Attempt<E>, finished: Option<Outcome<E>>)

  /** What the caller and the clock do: whether the context has ended before an attempt, what the
      operation returns, which errors are context errors or wrap which, the random numbers, and how
      long the operation, the clock readings and the waits (beyond the delay asked) take. */
  datatype World<!E> = World(
    cancelled: int -> bool,
    operation: int -> Option<E>,
    isContextError: E -> bool,
    wraps: (E, E) -> bool,
    random: int -> real,
    operationTime: int -> nat,
    firstReading: int -> nat,
    secondReading: int -> nat,
    waitSlack: int -> nat,
    waitFails: int -> bool)

  predicate NonRetryable<E>(world: World<E>, error: E, candidates: seq<Option<E>>) {
    exists i | 0 <= i < |candidates| :: candidates[i].Some? && world.wraps(error, candidates[i].value)
  }

  method IsNonRetryable<E>(world: World<E>, error: E, candidates: seq<Option<E>>) returns (r: bool)
    ensures r == NonRetryable(world, error, candidates)
  {
    for i := 0 to |candidates|
      invariant !NonRetryable(world, error, candidates[..i])
    {
      if candidates[i].Some? && world.wraps(error, candidates[i].value) {
        return true;
      }
    }
    assert candidates[..|candidates|] == candidates;
    return false;
  }

  function Delay<E>(cfg: Config<E>, world: World<E>, number: int, error: E): int
    requires number >= 1
  {
    var exponential := Backoff(number, cfg.initialDelay, cfg.delayMultiplier, cfg.maximumDelay);
    var asked := if cfg.retryAfter.Some? then cfg.retryAfter.value(error) else None;
    var delay := if asked.Some? && asked.value > 0 then Min(asked.value, cfg.maximumDelay) else exponential;
    if cfg.jitter then Jittered(delay, world.random(number)) else delay
  }

  lemma DelayBounds<E>(cfg: Config<E>, world: World<E>, number: int, error: E)
    requires Validated(cfg) && number >= 1
    ensures 0 <= Delay(cfg, world, number, error) <= cfg.maximumDelay
  {
    BackoffBounds(number, cfg.initialDelay, cfg.delayMultiplier, cfg.maximumDelay);
    var delay := Delay(cfg.(jitter := false), world, number, error);
    JitterBounds(delay, world.random(number));
  }

  /** Without jitter: what the server asked for, if it asked for a positive delay, but never more than the
      maximum; otherwise the backoff. */
  lemma DelayIsAskedOrBackoff<E>(cfg: Config<E>, world: World<E>, number: int, error: E)
    requires number >= 1 && !cfg.jitter
    ensures var delay := Delay(cfg, world, number, error);
            if cfg.retryAfter.Some? && cfg.retryAfter.value(error).Some? && cfg.retryAfter.value(error).value > 0
            then
              var asked := cfg.retryAfter.value(error).value;
              delay <= asked && delay <= cfg.maximumDelay && (delay == asked || delay == cfg.maximumDelay)
            else delay == Backoff(number, cfg.initialDelay, cfg.delayMultiplier, cfg.maximumDelay)
  {}

  /** With jitter: half of that delay, plus the random share of the other half. */
  lemma JitteredDelay<E>(cfg: Config<E>, world: World<E>, number: int, error: E)
    requires number >= 1 && cfg.jitter
    ensures var delay, r := Delay(cfg.(jitter := false), world, number, error), world.random(number);
            var share := if r <= 0.0 then 0.0 else if r >= 1.0 then 1.0 else r;
            Delay(cfg, world, number, error) == (delay as real * (0.5 + 0.5 * share)).Floor
  {}

  /** Without a random share half of the delay is left, with all of it the whole delay. */
  lemma JitterEnds(delay: int, random: real)
    requires delay >= 0
    ensures random <= 0.0 ==> Jittered(delay, random) == delay / 2
    ensures random >= 1.0 ==> Jittered(delay, random) == delay
  {
    HalfBelow(delay);
    if random <= 0.0 {
      assert JitterFactor(random) == 0.5;
      FloorIs(delay as real * 0.5, delay / 2);
    } else if random >= 1.0 {
      assert JitterFactor(random) == 1.0;
    }
  }

  lemma FloorIs(x: real, n: int)
    requires n as real <= x < (n + 1) as real
    ensures x.Floor == n
  {}

  /** Rounding is to a nearest whole number, halves up. */
  lemma RoundIsNearest(x: real)
    ensures Round(x) as real - 0.5 <= x < Round(x) as real + 0.5
  {}

  method DelayFor<E>(cfg: Config<E>, world: World<E>, number: int, error: E) returns (delay: int)
    requires Validated(cfg) && number >= 1
    ensures delay == Delay(cfg, world, number, error)
  {
    delay := ExponentialDelay(number, cfg.initialDelay, cfg.delayMultiplier, cfg.maximumDelay);
    if cfg.retryAfter.Some? {
      var asked := cfg.retryAfter.value(error);
      if asked.Some? && asked.value > 0 {
        delay := Min(asked.value, cfg.maximumDelay);
      }
    }
    if !cfg.jitter {
      return delay;
    }
    return Jittered(delay, world.random(number));
  }

  function GivenUp<E>(attempt: Attempt<E>): Decision<E> {
    Decision(attempt, Some(Exhausted(attempt.number, attempt.error)))
  }

  /** `elapsed` and `elapsedLater` are the two clock readings since the start: one for the exhaustion
      check, one for the time that remains. */
  function Decide<E>(cfg: Config<E>, world: World<E>, number: int, elapsed: int, elapsedLater: int,
                     error: Option<E>): Decision<E>
    requires number >= 1
  {
    var attempt := Attempt(number, error, 0);
    if error.None? then Decision(attempt, Some(Succeeded))
    else if world.isContextError(error.value) || NonRetryable(world, error.value, cfg.nonRetryable)
    then Decision(attempt, Some(NotRetryable(error.value)))
    else if number == cfg.maxAttempts || elapsed >= cfg.maximumElapsed then GivenUp(attempt)
    else
      var delayed := attempt.(retryDelay := Delay(cfg, world, number, error.value));
      if delayed.retryDelay > cfg.maximumElapsed - elapsedLater then GivenUp(delayed)
      else Decision(delayed, None)
  }

  method MakeDecision<E>(cfg: Config<E>, world: World<E>, number: int, elapsed: int, elapsedLater: int,
                         error: Option<E>)
    returns (decision: Decision<E>)
    requires Validated(cfg) && number >= 1
    ensures decision == Decide(cfg, world, number, elapsed, elapsedLater, error)
  {
    var attempt := Attempt(number, error, 0);
    if error.None? {
      return Decision(attempt, Some(Succeeded));
    }
    var nonRetryable := IsNonRetryable(world, error.value, cfg.nonRetryable);
    if world.isContextError(error.value) || nonRetryable {
      return Decision(attempt, Some(NotRetryable(error.value)));
    }
    if number == cfg.maxAttempts || elapsed >= cfg.maximumElapsed {
      return GivenUp(attempt);
    }
    var delay := DelayFor(cfg, world, number, error.value);
    attempt := attempt.(retryDelay := delay);
    if delay > cfg.maximumElapsed - elapsedLater {
      return GivenUp(attempt);
    }
    return Decision(attempt, None);
  }

  // ---- the run ------------------------------------------------------------

  /** How a run ended, the attempts it reported, and the waits it completed. */
  datatype Trace<+E> = Trace(outcome: Outcome<E>, attempts: seq<Attempt<E>>, waits: seq<int>)

  function After<E>(attempts: seq<Attempt<E>>, waits: seq<int>, later: Trace<E>): Trace<E> {
    Trace(later.outcome, attempts + later.attempts, waits + later.waits)
  }

  /** The decision after attempt `number`, begun when `now` has passed since the start. */
  function DecisionAt<E>(cfg: Config<E>, world: World<E>, number: int, now: int): Decision<E>
    requires number >= 1
  {
    var elapsed := now + world.operationTime(number) + world.firstReading(number);
    Decide(cfg, world, number, elapsed, elapsed + world.secondReading(number), world.operation(number))
  }

  /** When the next attempt begins: waiting a delay moves the clock by at least that delay. */
  function NextStart<E>(cfg: Config<E>, world: World<E>, number: int, now: int): int
    requires number >= 1
  {
    now + world.operationTime(number) + world.firstReading(number) + world.secondReading(number)
    + DecisionAt(cfg, world, number, now).attempt.retryDelay + world.waitSlack(number)
  }

  /** The run from attempt `number` on. A decision that is not final is only ever taken before the
      last attempt, so there is always a next one. */
  function RunFrom<E>(cfg: Config<E>, world: World<E>, number: int, now: int): Trace<E>
    requires 1 <= number <= cfg.maxAttempts
    decreases cfg.maxAttempts - number
  {
    if world.cancelled(number) then Trace(Cancelled, [], [])
    else
      var decision := DecisionAt(cfg, world, number, now);
      if decision.finished.Some? then Trace(decision.finished.value, [decision.attempt], [])
      else if world.waitFails(number) then Trace(WaitInterrupted, [decision.attempt], [])
      else
        After([decision.attempt], [decision.attempt.retryDelay],
              RunFrom(cfg, world, number + 1, NextStart(cfg, world, number, now)))
  }

  /** One attempt: the operation, then the two clock readings of the decision. */
  method TakeTurn<E>(cfg: Config<E>, world: World<E>, number: int, began: int)
    returns (decision: Decision<E>, now: int)
    requires Validated(cfg) && number >= 1
    ensures decision == DecisionAt(cfg, world, number, began)
    ensures now + decision.attempt.retryDelay + world.waitSlack(number) == NextStart(cfg, world, number, began)
  {
    var error := world.operation(number);
    now := began + world.operationTime(number) + world.firstReading(number);
    var elapsed := now;
    now := now + world.secondReading(number);
    decision := MakeDecision(cfg, world, number, elapsed, now, error);
  }

  /** One turn of the loop: it ends the run, or goes on with one more attempt and wait behind it. */
  method RunTurn<E>(cfg: Config<E>, world: World<E>, number: int, began: int, attempts: seq<Attempt<E>>,
                    waits: seq<int>)
    returns (ended: Option<Trace<E>>, attempt: Attempt<E>, now: int)
    requires Validated(cfg) && 1 <= number <= cfg.maxAttempts
    ensures ended.Some? ==> After(attempts, waits, RunFrom(cfg, world, number, began)) == ended.value
    ensures ended.None? ==>
              && number < cfg.maxAttempts
              && After(attempts, waits, RunFrom(cfg, world, number, began))
              == After(attempts + [attempt], waits + [attempt.retryDelay], RunFrom(cfg, world, number + 1, now))
  {
    now := began;
    if world.cancelled(number) {
      AfterNothing(attempts, waits);
      return Some(Trace(Cancelled, attempts, waits)), Attempt(number, None, 0), now;
    }
    var decision;
    decision, now := TakeTurn(cfg, world, number, began);
    attempt := decision.attempt;
    if decision.finished.Some? {
      TurnEnds(cfg, world, number, began, attempts, waits, decision.finished.value);
      return Some(Trace(decision.finished.value, attempts + [attempt], waits)), attempt, now;
    }
    if world.waitFails(number) {
      TurnEnds(cfg, world, number, began, attempts, waits, WaitInterrupted);
      return Some(Trace(WaitInterrupted, attempts + [attempt], waits)), attempt, now;
    }
    now := now + attempt.retryDelay + world.waitSlack(number);
    TurnGoesOn(cfg, world, number, began, attempts, waits);
    ended := None;
  }

  /** The loop is the run above: in particular the return after it is never taken. */
  method Run<E>(cfg: Config<E>, world: World<E>)
    returns (outcome: Outcome<E>, attempts: seq<Attempt<E>>, waits: seq<int>)
    requires Validated(cfg)
    ensures Trace(outcome, attempts, waits) == RunFrom(cfg, world, 1, 0)
  {
    attempts, waits := [], [];
    var now := 0;
    var number := 1;
    ghost var target := RunFrom(cfg, world, 1, 0);
    while number <= cfg.maxAttempts
      invariant 1 <= number <= cfg.maxAttempts
      invariant After(attempts, waits, RunFrom(cfg, world, number, now)) == target
    {
      var ended, attempt;
      ended, attempt, now := RunTurn(cfg, world, number, now, attempts, waits);
      if ended.Some? {
        return ended.value.outcome, ended.value.attempts, ended.value.waits;
      }
      attempts, waits := attempts + [attempt], waits + [attempt.retryDelay];
      number := number + 1;
    }
    outcome := Exhausted(cfg.maxAttempts, None);
  }

  /** A decision that is not final leaves another attempt to make. */
  lemma GoesOn<E>(cfg: Config<E>, world: World<E>, number: int, now: int)
    requires 1 <= number <= cfg.maxAttempts && !world.cancelled(number) && !world.waitFails(number)
    requires DecisionAt(cfg, world, number, now).finished.None?
    ensures number < cfg.maxAttempts
    ensures var attempt := DecisionAt(cfg, world, number, now).attempt;
            RunFrom(cfg, world, number, now)
            == After([attempt], [attempt.retryDelay],
                     RunFrom(cfg, world, number + 1, NextStart(cfg, world, number, now)))
  {}

  /** A final decision or an interrupted wait ends the run after this attempt. */
  lemma Stops<E>(cfg: Config<E>, world: World<E>, number: int, now: int)
    requires 1 <= number <= cfg.maxAttempts && !world.cancelled(number)
    ensures var d := DecisionAt(cfg, world, number, now);
            && (d.finished.Some? ==> RunFrom(cfg, world, number, now) == Trace(d.finished.value, [d.attempt], []))
            && (d.finished.None? && world.waitFails(number) ==>
                  RunFrom(cfg, world, number, now) == Trace(WaitInterrupted, [d.attempt], []))
  {}

  lemma TurnEnds<E>(cfg: Config<E>, world: World<E>, number: int, now: int, attempts: seq<Attempt<E>>,
                    waits: seq<int>, outcome: Outcome<E>)
    requires 1 <= number <= cfg.maxAttempts && !world.cancelled(number)
    requires var d := DecisionAt(cfg, world, number, now);
             if d.finished.Some? then outcome == d.finished.value
             else world.waitFails(number) && outcome == WaitInterrupted
    ensures After(attempts, waits, RunFrom(cfg, world, number, now))
         == Trace(outcome, attempts + [DecisionAt(cfg, world, number, now).attempt], waits)
  {
    Stops(cfg, world, number, now);
    AfterLast(attempts, waits, DecisionAt(cfg, world, number, now).attempt, outcome);
  }

  lemma TurnGoesOn<E>(cfg: Config<E>, world: World<E>, number: int, now: int, attempts: seq<Attempt<E>>,
                      waits: seq<int>)
    requires 1 <= number <= cfg.maxAttempts && !world.cancelled(number) && !world.waitFails(number)
    requires DecisionAt(cfg, world, number, now).finished.None?
    ensures number < cfg.maxAttempts
    ensures var attempt := DecisionAt(cfg, world, number, now).attempt;
            After(attempts, waits, RunFrom(cfg, world, number, now))
            == After(attempts + [attempt], waits + [attempt.retryDelay],
                     RunFrom(cfg, world, number + 1, NextStart(cfg, world, number, now)))
  {
    GoesOn(cfg, world, number, now);
    AfterAfter(attempts, waits, DecisionAt(cfg, world, number, now).attempt,
               RunFrom(cfg, world, number + 1, NextStart(cfg, world, number, now)));
  }

  lemma AfterLast<E>(attempts: seq<Attempt<E>>, waits: seq<int>, attempt: Attempt<E>, outcome: Outcome<E>)
    ensures After(attempts, waits, Trace(outcome, [attempt], [])) == Trace(outcome, attempts + [attempt], waits)
  {
    AfterNothing(attempts, waits);
  }

  lemma AfterNothing<E>(attempts: seq<Attempt<E>>, waits: seq<int>)
    ensures attempts + [] == attempts && waits + [] == waits
  {}

  lemma AfterAfter<E>(attempts: seq<Attempt<E>>, waits: seq<int>, attempt: Attempt<E>, later: Trace<E>)
    ensures After(attempts, waits, After([attempt], [attempt.retryDelay], later))
         == After(attempts + [attempt], waits + [attempt.retryDelay], later)
  {
    ConcatAssociative(attempts, [attempt], later.attempts);
    ConcatAssociative(waits, [attempt.retryDelay], later.waits);
  }

  function Sum(xs: seq<int>): int {
    if xs == [] then 0 else xs[0] + Sum(xs[1..])
  }

  /** The error may be retried: neither a context error nor one that wraps a listed candidate. */
  ghost predicate Retryable<E>(cfg: Config<E>, world: World<E>, error: Option<E>) {
    && error.Some? && !world.isContextError(error.value)
    && forall i | 0 <= i < |cfg.nonRetryable| ::
         cfg.nonRetryable[i].Some? ==> !world.wraps(error.value, cfg.nonRetryable[i].value)
  }

  /** When the next attempt begins if attempt `number`, begun at `now`, was followed by a wait. */
  function Later<E>(world: World<E>, number: int, now: int, waited: int): int {
    now + world.operationTime(number) + world.firstReading(number) + world.secondReading(number) + waited
    + world.waitSlack(number)
  }

  /** When attempt `first + i` began, told from the waits before it. */
  function Began<E>(world: World<E>, first: int, now: int, waits: seq<int>, i: nat): int
    requires i <= |waits|
    decreases i
  {
    if i == 0 then now
    else Later(world, first + i - 1, Began(world, first, now, waits, i - 1), waits[i - 1])
  }

  /** No attempt is left, or no time when the first clock was read. */
  predicate NothingLeft<E>(cfg: Config<E>, world: World<E>, number: int, began: int) {
    || number == cfg.maxAttempts
    || began + world.operationTime(number) + world.firstReading(number) >= cfg.maximumElapsed
  }

  /** The wait would take longer than what was left when the second clock was read. */
  predicate WaitTooLong<E>(cfg: Config<E>, world: World<E>, number: int, began: int, wait: int) {
    began + world.operationTime(number) + world.firstReading(number) + world.secondReading(number) + wait
    > cfg.maximumElapsed
  }

  /** Attempt `number` is followed by a wait: its error may be retried, an attempt and time are left. */
  ghost predicate Retried<E>(cfg: Config<E>, world: World<E>, attempt: Attempt<E>, number: int, began: int) {
    && number >= 1 && !world.cancelled(number) && attempt.number == number
    && attempt.error == world.operation(number) && Retryable(cfg, world, attempt.error)
    && attempt.retryDelay == Delay(cfg, world, number, attempt.error.value)
    && !NothingLeft(cfg, world, number, began) && !WaitTooLong(cfg, world, number, began, attempt.retryDelay)
  }

  /** Attempt `number` is the last of a run that ended so: it succeeded; or its error may not be retried; or
      it may, but no attempt or no time was left; or it was to be retried and the wait was interrupted. */
  ghost predicate LastAttempt<E>(cfg: Config<E>, world: World<E>, attempt: Attempt<E>, number: int, began: int,
                                 outcome: Outcome<E>)
  {
    && number >= 1 && !world.cancelled(number)
    && attempt.number == number && attempt.error == world.operation(number)
    && match outcome
       case Cancelled => false
       case Succeeded => attempt.error.None? && attempt.retryDelay == 0
       case NotRetryable(e) =>
         attempt.error == Some(e) && !Retryable(cfg, world, attempt.error) && attempt.retryDelay == 0
       case Exhausted(n, cause) =>
         && n == number && cause == attempt.error && Retryable(cfg, world, attempt.error)
         && (if NothingLeft(cfg, world, number, began) then attempt.retryDelay == 0
             else
               && attempt.retryDelay == Delay(cfg, world, number, attempt.error.value)
               && WaitTooLong(cfg, world, number, began, attempt.retryDelay))
       case WaitInterrupted => Retried(cfg, world, attempt, number, began) && world.waitFails(number)
  }

  /** How a run that began at attempt `first` when `now` had passed ends. An exhausted run always carries the
      last error: it never ends by running out of the loop. */
  ghost predicate EndsWell<E>(cfg: Config<E>, world: World<E>, first: int, now: int, t: Trace<E>) {
    if t.outcome.Cancelled?
    then |t.attempts| == |t.waits| && world.cancelled(first + |t.attempts|)
    else
      && |t.attempts| == |t.waits| + 1
      && var last := |t.waits|;
         LastAttempt(cfg, world, t.attempts[last], first + last, Began(world, first, now, t.waits, last), t.outcome)
  }

  /** Attempt `first + i` of the trace was retried. */
  ghost predicate RetriedAt<E>(cfg: Config<E>, world: World<E>, first: int, now: int, t: Trace<E>, i: nat)
    requires i < |t.waits| <= |t.attempts|
  {
    && Retried(cfg, world, t.attempts[i], first + i, Began(world, first, now, t.waits, i))
    && t.waits[i] == t.attempts[i].retryDelay && !world.waitFails(first + i)
  }

  /** What holds of a run that began at attempt `first` when `now` had passed. */
  ghost predicate Lawful<E>(cfg: Config<E>, world: World<E>, first: int, now: int, t: Trace<E>) {
    && first - 1 + |t.attempts| <= cfg.maxAttempts && |t.waits| <= |t.attempts|
    && (forall i | 0 <= i < |t.attempts| :: 0 <= t.attempts[i].retryDelay <= cfg.maximumDelay)
    && (t.waits != [] ==> now + Sum(t.waits) <= cfg.maximumElapsed)
    && (forall i: nat | i < |t.waits| :: RetriedAt(cfg, world, first, now, t, i))
    && EndsWell(cfg, world, first, now, t)
  }

  lemma DecisionFacts<E>(cfg: Config<E>, world: World<E>, number: int, now: int)
    requires Validated(cfg) && 1 <= number <= cfg.maxAttempts && now >= 0
    ensures var d := DecisionAt(cfg, world, number, now);
            && 0 <= d.attempt.retryDelay <= cfg.maximumDelay
            && (!world.cancelled(number) && d.finished.Some? ==>
                  LastAttempt(cfg, world, d.attempt, number, now, d.finished.value))
            && (!world.cancelled(number) && d.finished.None? ==> Retried(cfg, world, d.attempt, number, now))
            && (d.finished.None? ==>
                  && number < cfg.maxAttempts
                  && now + d.attempt.retryDelay <= cfg.maximumElapsed
                  && now + d.attempt.retryDelay <= NextStart(cfg, world, number, now)
                  && NextStart(cfg, world, number, now) == Later(world, number, now, d.attempt.retryDelay))
  {
    if world.operation(number).Some? {
      DelayBounds(cfg, world, number, world.operation(number).value);
    }
  }

  lemma {:induction false} BeganLater<E>(world: World<E>, first: int, now: int, waits: seq<int>, i: nat)
    requires 1 <= i <= |waits|
    ensures Began(world, first, now, waits, i)
         == Began(world, first + 1, Later(world, first, now, waits[0]), waits[1..], i - 1)
    decreases i
  {
    if i > 1 {
      BeganLater(world, first, now, waits, i - 1);
    }
  }

  lemma RetriedLater<E>(cfg: Config<E>, world: World<E>, number: int, now: int, attempt: Attempt<E>,
                        later: Trace<E>, i: nat)
    requires i < |later.waits| <= |later.attempts|
    requires RetriedAt(cfg, world, number + 1, Later(world, number, now, attempt.retryDelay), later, i)
    ensures RetriedAt(cfg, world, number, now, After([attempt], [attempt.retryDelay], later), i + 1)
  {
    var t := After([attempt], [attempt.retryDelay], later);
    assert t.waits[1..] == later.waits;
    BeganLater(world, number, now, t.waits, i + 1);
  }

  lemma EndsLater<E>(cfg: Config<E>, world: World<E>, number: int, now: int, attempt: Attempt<E>, later: Trace<E>)
    requires EndsWell(cfg, world, number + 1, Later(world, number, now, attempt.retryDelay), later)
    ensures EndsWell(cfg, world, number, now, After([attempt], [attempt.retryDelay], later))
  {
    var t := After([attempt], [attempt.retryDelay], later);
    assert t.waits[1..] == later.waits;
    BeganLater(world, number, now, t.waits, |t.waits|);
  }

  lemma LawfulStep<E>(cfg: Config<E>, world: World<E>, number: int, now: int, attempt: Attempt<E>, later: Trace<E>)
    requires 0 <= attempt.retryDelay <= cfg.maximumDelay && number < cfg.maxAttempts
    requires Retried(cfg, world, attempt, number, now) && !world.waitFails(number)
    requires var next := Later(world, number, now, attempt.retryDelay);
             && now + attempt.retryDelay <= next && now + attempt.retryDelay <= cfg.maximumElapsed
             && Lawful(cfg, world, number + 1, next, later)
    ensures Lawful(cfg, world, number, now, After([attempt], [attempt.retryDelay], later))
  {
    var t := After([attempt], [attempt.retryDelay], later);
    assert t.waits[1..] == later.waits;
    forall i: nat | i < |t.waits|
      ensures RetriedAt(cfg, world, number, now, t, i)
    {
      if i > 0 {
        RetriedLater(cfg, world, number, now, attempt, later, i - 1);
      }
    }
    EndsLater(cfg, world, number, now, attempt, later);
  }

  lemma {:induction false} RunIsLawful<E>(cfg: Config<E>, world: World<E>, number: int, now: int)
    requires Validated(cfg) && 1 <= number <= cfg.maxAttempts && now >= 0
    ensures Lawful(cfg, world, number, now, RunFrom(cfg, world, number, now))
    decreases cfg.maxAttempts - number
  {
    DecisionFacts(cfg, world, number, now);
    var d := DecisionAt(cfg, world, number, now);
    if !world.cancelled(number) && d.finished.None? && !world.waitFails(number) {
      var next := NextStart(cfg, world, number, now);
      RunIsLawful(cfg, world, number + 1, next);
      LawfulStep(cfg, world, number, now, d.attempt, RunFrom(cfg, world, number + 1, next));
    }
  }

  /** For every validated configuration: at most `maxAttempts` attempts, every delay at most
      `maximumDelay`, and, the clock moving at least as far as every completed wait, the waits sum to
      at most `maximumElapsed`. */
  lemma RunIsBounded<E>(cfg: Config<E>, world: World<E>)
    requires Validated(cfg)
    ensures var t := RunFrom(cfg, world, 1, 0);
            && |t.waits| <= |t.attempts| <= cfg.maxAttempts
            && (forall i | 0 <= i < |t.attempts| :: 0 <= t.attempts[i].retryDelay <= cfg.maximumDelay)
            && Sum(t.waits) <= cfg.maximumElapsed
            && EndsWell(cfg, world, 1, 0, t)
  {
    RunIsLawful(cfg, world, 1, 0);
  }
}
