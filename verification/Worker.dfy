/** Durable attempts, bounded retries and dead letters (graph/worker.py, graph/retry.py).

Each transaction is a function on the rows; the store's methods carry them out in place. */
module Worker {
  import opened Domain
  import opened Tables

  datatype RetryConfig = RetryConfig(maxAttempts: nat, initialDelay: real, maxDelay: real, leaseSeconds: int)

  predicate ValidConfig(c: RetryConfig) {
    && 1 <= c.maxAttempts <= 10
    && 0.0 <= c.initialDelay <= 60.0
    && c.initialDelay <= c.maxDelay <= 300.0
    && 1 <= c.leaseSeconds <= 3600
  }

  function Power2(n: nat): nat {
    if n == 0 then 1 else 2 * Power2(n - 1)
  }

  function Delay(c: RetryConfig, failedAttempt: nat): real
    requires failedAttempt >= 1
  {
    var exponential := c.initialDelay * (Power2(failedAttempt - 1) as real);
    if exponential <= c.maxDelay then exponential else c.maxDelay
  }

  datatype WorkerError =
    | InDeadLetter | CancelledRun | InProgress | BudgetExhausted | NotSettled | ClaimChanged | InvalidRedrive
    | InvalidRetryState // the schema of the stored retry state refuses the error type

  datatype BeginOutcome = NothingToClaim | Claimed(attempt: RunAttempt) | Refused(error: WorkerError)

  /** A missing error column reads as a fresh retry state. */
  function Stored(run: RunRow): RetryState {
    match run.error
    case None => RetryState(0, 0, None, None, false)
    case Some(state) => state
  }

  predicate LeaseHeld(run: RunRow, c: RetryConfig, now: int) {
    run.status == Running && run.startedAt.Some? && now - run.startedAt.value < c.leaseSeconds
  }

  function Begin(rows: Rows, c: RetryConfig, now: int, continuation: bool): (Rows, BeginOutcome) {
    var run := rows.run;
    if run.status in {Completed, Paused} then (rows, NothingToClaim)
    else if run.status == Failed then (rows, Refused(InDeadLetter))
    else if run.status == Cancelled then (rows, Refused(CancelledRun))
    else if !continuation && LeaseHeld(run, c, now) then (rows, Refused(InProgress))
    else if Stored(run).attempts >= c.maxAttempts then (rows, Refused(BudgetExhausted))
    else
      (rows.(run := run.(status := Running, startedAt := Some(now), completedAt := None)),
       Claimed(RunAttempt(Stored(run).attempts + 1, Stored(run).cycle)))
  }

  function Settle(rows: Rows, status: GraphStatus, now: int): (Rows, Result<(), WorkerError>) {
    if status !in {AwaitingReview, GraphCompleted, GraphRejected} then (rows, Err(NotSettled))
    else
      var target := if status == AwaitingReview then Paused else Completed;
      if rows.run.status == Running then
        (rows.(run := rows.run.(
           status := target, completedAt := if target == Completed then Some(now) else None, error := None)),
         Ok(()))
      else if rows.run.status == target && rows.run.error == None then (rows, Ok(()))
      else (rows, Err(ClaimChanged))
  }

  predicate Alphanumeric(c: char) {
    'A' <= c <= 'Z' || 'a' <= c <= 'z' || '0' <= c <= '9'
  }

  /** The exception names the stored retry state admits; `_Private` is a class name it refuses. */
  predicate ValidErrorType(name: string) {
    && 1 <= |name| <= 128 && Alphanumeric(name[0]) && !('0' <= name[0] <= '9')
    && forall c <- name :: Alphanumeric(c) || c == '_'
  }

  /** `failed` builds the stored state before it opens its transaction, so a refused error type raises
  and nothing is written. */
  function FailureState(a: RunAttempt, errorType: string, retryable: bool, terminal: bool): RetryState {
    RetryState(a.attempt, a.cycle, Some(errorType), Some(retryable), terminal)
  }

  function Fail(rows: Rows, a: RunAttempt, errorType: string, retryable: bool, terminal: bool, now: int)
    : (Rows, Result<(), WorkerError>)
  {
    var state := FailureState(a, errorType, retryable, terminal);
    var target := if terminal then Failed else Running;
    if !ValidErrorType(errorType) then (rows, Err(InvalidRetryState))
    else if rows.run.status == Running then
      (rows.(run := rows.run.(
               status := target, completedAt := if terminal then Some(now) else None, error := Some(state)),
             ledger := if terminal
                       then rows.ledger + [DeadLettered(a.attempt, a.cycle, errorType, retryable)]
                       else rows.ledger),
       Ok(()))
    else if rows.run.status == target && rows.run.error == Some(state) then (rows, Ok(()))
    else (rows, Err(ClaimChanged))
  }

  predicate KeyChar(c: char) {
    Alphanumeric(c) || c in "._:-"
  }

  predicate ValidKey(key: string) {
    1 <= |key| <= 128 && Alphanumeric(key[0]) && forall c <- key :: KeyChar(c)
  }

  predicate ValidActor(actor: string) {
    1 <= |actor| <= 128 && Alphanumeric(actor[0]) && forall c <- actor :: KeyChar(c) || c == '@'
  }

  predicate ValidReason(reason: string) {
    |reason| <= 2000 && exists c <- reason :: !Blank(c)
  }

  /** One character and up to 127 more: an error type starts with a letter and goes on with word characters, a
  key or an actor starts with a letter or a digit and may go on with a few marks. */
  lemma PatternsAdmit(first: char, rest: string)
    ensures !ValidErrorType("") && !ValidKey("") && !ValidActor("")
    ensures ValidErrorType([first] + rest) <==>
              |rest| < 128 && ('a' <= first <= 'z' || 'A' <= first <= 'Z') && forall c <- rest :: Alphanumeric(c) || c == '_'
    ensures ValidKey([first] + rest) <==>
              |rest| < 128 && Alphanumeric(first) && forall c <- rest :: Alphanumeric(c) || c in {'.', '_', ':', '-'}
    ensures ValidActor([first] + rest) <==>
              |rest| < 128 && Alphanumeric(first) && forall c <- rest :: Alphanumeric(c) || c in {'.', '_', ':', '-', '@'}
  {
    assert ([first] + rest)[1..] == rest;
    assert forall c :: c in [first] + rest <==> c == first || c in rest;
  }

  /** The committed redrive that used this idempotency key. */
  function PriorRedrive(ledger: seq<Event>, key: string): Option<Event> {
    if ledger == [] then None
    else
      var last := ledger[|ledger| - 1];
      if last.Redriven? && last.key == key then Some(last) else PriorRedrive(ledger[..|ledger| - 1], key)
  }

  lemma {:induction false} PriorRedriveFinds(ledger: seq<Event>, key: string)
    ensures match PriorRedrive(ledger, key)
            case None => forall e <- ledger :: e.Redriven? ==> e.key != key
            case Some(e) => e in ledger && e.Redriven? && e.key == key
  {
    if ledger != [] {
      var front, last := ledger[..|ledger| - 1], ledger[|ledger| - 1];
      assert ledger == front + [last];
      PriorRedriveFinds(front, key);
    }
  }

  function Redrive(rows: Rows, key: string, actor: string, reason: string): (Rows, Result<bool, WorkerError>) {
    if !ValidKey(key) || !ValidActor(actor) || !ValidReason(reason) then (rows, Err(InvalidRedrive))
    else
      match PriorRedrive(rows.ledger, key)
      case Some(e) =>
        if e.Redriven? && e.actor == actor && e.reason == reason then (rows, Ok(false))
        else (rows, Err(InvalidRedrive))
      case None =>
        var state := Stored(rows.run);
        if rows.run.status != Failed || !state.deadLettered then (rows, Err(InvalidRedrive))
        else
          (rows.(run := RunRow(Queued, None, None, Some(RetryState(0, state.cycle + 1, None, None, false))),
                 ledger := rows.ledger + [Redriven(key, actor, reason, state.cycle, state.cycle + 1)]),
           Ok(true))
  }

  class PostgresAttemptStore {
    const tables: InvoiceTables
    const config: RetryConfig

    constructor (tables: InvoiceTables, config: RetryConfig)
      ensures this.tables == tables && this.config == config
    {
      this.tables := tables;
      this.config := config;
    }

    method BeginAttempt(now: int, continuation: bool) returns (outcome: BeginOutcome)
      modifies tables
      ensures (tables.View(), outcome) == Begin(old(tables.View()), config, now, continuation)
      ensures outcome == NothingToClaim <==> old(tables.run).status in {Paused, Completed}
      ensures outcome == Refused(InDeadLetter) <==> old(tables.run).status == Failed
      ensures outcome == Refused(CancelledRun) <==> old(tables.run).status == Cancelled
      ensures outcome == Refused(InProgress) <==>
                && old(tables.run).status == Running && !continuation && old(tables.run).startedAt.Some?
                && now < old(tables.run).startedAt.value + config.leaseSeconds
      ensures outcome.Claimed? ==>
                && old(tables.run).status in {Queued, Running} && outcome.attempt.attempt <= config.maxAttempts
                && var failed := old(tables.run).error;
                   outcome.attempt == (if failed == None then RunAttempt(1, 0) else RunAttempt(failed.value.attempts + 1, failed.value.cycle))
      ensures tables.View() == if outcome.Claimed? then old(tables.View()).(run := RunRow(Running, Some(now), None, old(tables.run).error))
                               else old(tables.View())
    {
      if tables.run.status in {Completed, Paused} {
        return NothingToClaim;
      }
      if tables.run.status == Failed {
        return Refused(InDeadLetter);
      }
      if tables.run.status == Cancelled {
        return Refused(CancelledRun);
      }
      var startedAt := tables.run.startedAt;
      if tables.run.status == Running && !continuation && startedAt.Some?
         && now - startedAt.value < config.leaseSeconds {
        return Refused(InProgress);
      }
      var state := Stored(tables.run);
      if state.attempts >= config.maxAttempts {
        return Refused(BudgetExhausted);
      }
      tables.run := tables.run.(status := Running, startedAt := Some(now), completedAt := None);
      outcome := Claimed(RunAttempt(state.attempts + 1, state.cycle));
    }

    method SettleAttempt(status: GraphStatus, now: int) returns (r: Result<(), WorkerError>)
      modifies tables
      ensures (tables.View(), r) == Settle(old(tables.View()), status, now)
      ensures r == Err(NotSettled) <==> status in {GraphQueued, GraphRunning}
      ensures r == Err(ClaimChanged) <==>
                && status !in {GraphQueued, GraphRunning} && old(tables.run).status != Running
                && !(old(tables.run).error == None && old(tables.run).status == if status == AwaitingReview then Paused else Completed)
      ensures tables.View() == if r.Err? || old(tables.run).status != Running then old(tables.View())
                else old(tables.View()).(run := if status == AwaitingReview then RunRow(Paused, old(tables.run).startedAt, None, None)
                                                else RunRow(Completed, old(tables.run).startedAt, Some(now), None))
    {
      if status !in {AwaitingReview, GraphCompleted, GraphRejected} {
        return Err(NotSettled);
      }
      var target := if status == AwaitingReview then Paused else Completed;
      var completedAt := if target == Completed then Some(now) else None;
      if tables.run.status == Running {
        tables.run := tables.run.(status := target, completedAt := completedAt, error := None);
      } else if tables.run.status != target || tables.run.error.Some? {
        return Err(ClaimChanged);
      }
      r := Ok(());
    }

    method FailAttempt(a: RunAttempt, errorType: string, retryable: bool, terminal: bool, now: int)
      returns (r: Result<(), WorkerError>)
      modifies tables
      ensures (tables.View(), r) == Fail(old(tables.View()), a, errorType, retryable, terminal, now)
      ensures r == Err(InvalidRetryState) <==> !ValidErrorType(errorType)
      ensures r == Err(ClaimChanged) <==>
                && ValidErrorType(errorType) && old(tables.run).status != Running
                && !(old(tables.run).status == Failed && terminal
                     && old(tables.run).error == Some(RetryState(a.attempt, a.cycle, Some(errorType), Some(retryable), true)))
      ensures tables.View() == if r.Err? || old(tables.run).status != Running then old(tables.View())
                else old(tables.View()).(
                       run := RunRow(if terminal then Failed else Running, old(tables.run).startedAt, if terminal then Some(now) else None,
                                     Some(RetryState(a.attempt, a.cycle, Some(errorType), Some(retryable), terminal))),
                       ledger := old(tables.ledger) + if terminal then [DeadLettered(a.attempt, a.cycle, errorType, retryable)] else [])
    {
      if !ValidErrorType(errorType) {
        return Err(InvalidRetryState);
      }
      var state := FailureState(a, errorType, retryable, terminal);
      if tables.run.status != Running {
        var expected := if terminal then Failed else Running;
        if tables.run.status != expected || tables.run.error != Some(state) {
          return Err(ClaimChanged);
        }
        return Ok(());
      }
      tables.run := tables.run.(
        status := if terminal then Failed else Running,
        completedAt := if terminal then Some(now) else None,
        error := Some(state));
      if terminal {
        tables.ledger := tables.ledger + [DeadLettered(a.attempt, a.cycle, errorType, retryable)];
      }
      r := Ok(());
    }

    method RedriveRun(key: string, actor: string, reason: string) returns (r: Result<bool, WorkerError>)
      modifies tables
      ensures (tables.View(), r) == Redrive(old(tables.View()), key, actor, reason)
    {
      if !ValidKey(key) || !ValidActor(actor) || !ValidReason(reason) {
        return Err(InvalidRedrive);
      }
      var previous := PriorRedrive(tables.ledger, key);
      if previous.Some? {
        if !previous.value.Redriven? || previous.value.actor != actor || previous.value.reason != reason {
          return Err(InvalidRedrive);
        }
        return Ok(false);
      }
      var state := Stored(tables.run);
      if tables.run.status != Failed || !state.deadLettered {
        return Err(InvalidRedrive);
      }
      var next := RetryState(0, state.cycle + 1, None, None, false);
      tables.run := RunRow(Queued, None, None, Some(next));
      tables.ledger := tables.ledger + [Redriven(key, actor, reason, state.cycle, next.cycle)];
      r := Ok(true);
    }
  }

  // ---------------------------------------------------------------- the retry loop

  /** What one execution of the graph reports to the retry worker. */
  datatype RunOutcome =
    | Returned(status: GraphStatus)
    | Infrastructure(name: string)
    | Business(name: string)
    | AlreadyRunning
    | Interrupted

  datatype ProcessOutcome =
    | Finished(status: GraphStatus)
    | Raised(name: string)
    | StoreRaised(error: WorkerError)
    | Busy
    | CancelledByCaller

  /** One uninterrupted `process` call: rows, outcome, executions of the graph, total back-off. */
  datatype Processed = Processed(rows: Rows, outcome: ProcessOutcome, runs: nat, slept: real)

  function Process(rows: Rows, c: RetryConfig, runOnce: nat -> RunOutcome, clock: nat -> int, i: nat): (p: Processed)
    decreases c.maxAttempts - Stored(rows.run).attempts
  {
    match Begin(rows, c, clock(i), i > 0)
    case (_, Refused(error)) => Processed(rows, StoreRaised(error), 0, 0.0)
    case (_, NothingToClaim) =>
      Processed(rows, match runOnce(i)
                      case Returned(status) => Finished(status)
                      case Infrastructure(name) => Raised(name)
                      case Business(name) => Raised(name)
                      case AlreadyRunning => Busy
                      case Interrupted => CancelledByCaller, 1, 0.0)
    case (claimed, Claimed(a)) =>
      match runOnce(i)
      case Interrupted => Processed(claimed, CancelledByCaller, 1, 0.0)
      case AlreadyRunning => Processed(claimed, Busy, 1, 0.0)
      case Returned(status) =>
        var (settled, r) := Settle(claimed, status, clock(i));
        Processed(settled, if r.Ok? then Finished(status) else StoreRaised(r.error), 1, 0.0)
      case Business(name) =>
        var (failed, r) := Fail(claimed, a, name, false, true, clock(i));
        Processed(failed, if r.Ok? then Raised(name) else StoreRaised(r.error), 1, 0.0)
      case Infrastructure(name) =>
        var terminal := a.attempt >= c.maxAttempts;
        var (failed, r) := Fail(claimed, a, name, true, terminal, clock(i));
        if r.Err? then Processed(failed, StoreRaised(r.error), 1, 0.0)
        else if terminal then Processed(failed, Raised(name), 1, 0.0)
        else
          var rest := Process(failed, c, runOnce, clock, i + 1);
          Processed(rest.rows, rest.outcome, 1 + rest.runs, Delay(c, a.attempt) + rest.slept)
  }

  function Extend(p: Processed, runs: nat, slept: real): Processed {
    p.(runs := runs + p.runs, slept := slept + p.slept)
  }

  class RetryWorker {
    const store: PostgresAttemptStore

    constructor (store: PostgresAttemptStore)
      ensures this.store == store
    {
      this.store := store;
    }

    /** `runOnce(i)` and `clock(i)` are what the i-th execution of the graph and of the clock yield. */
    method ProcessRun(runOnce: nat -> RunOutcome, clock: nat -> int)
      returns (outcome: ProcessOutcome, runs: nat, slept: real)
      modifies store.tables
      ensures Processed(store.tables.View(), outcome, runs, slept)
           == Process(old(store.tables.View()), store.config, runOnce, clock, 0)
    {
      var tables, c := store.tables, store.config;
      var i := 0;
      runs, slept := 0, 0.0;
      while true
        invariant i == runs
        invariant Extend(Process(tables.View(), c, runOnce, clock, i), runs, slept)
               == Process(old(tables.View()), c, runOnce, clock, 0)
        decreases c.maxAttempts - Stored(tables.run).attempts
      {
        var attempt := store.BeginAttempt(clock(i), i > 0);
        match attempt {
          case Refused(error) => return StoreRaised(error), runs, slept;
          case NothingToClaim =>
            match runOnce(i) {
              case Returned(status) => return Finished(status), runs + 1, slept;
              case Infrastructure(name) => return Raised(name), runs + 1, slept;
              case Business(name) => return Raised(name), runs + 1, slept;
              case AlreadyRunning => return Busy, runs + 1, slept;
              case Interrupted => return CancelledByCaller, runs + 1, slept;
            }
          case Claimed(a) =>
            runs := runs + 1;
            match runOnce(i) {
              case Interrupted => return CancelledByCaller, runs, slept;
              case AlreadyRunning => return Busy, runs, slept;
              case Returned(status) =>
                var r := store.SettleAttempt(status, clock(i));
                return if r.Ok? then Finished(status) else StoreRaised(r.error), runs, slept;
              case Business(name) =>
                var r := store.FailAttempt(a, name, false, true, clock(i));
                return if r.Ok? then Raised(name) else StoreRaised(r.error), runs, slept;
              case Infrastructure(name) =>
                var terminal := a.attempt >= c.maxAttempts;
                var r := store.FailAttempt(a, name, true, terminal, clock(i));
                if r.Err? {
                  return StoreRaised(r.error), runs, slept;
                }
                if terminal {
                  return Raised(name), runs, slept;
                }
                slept := slept + Delay(c, a.attempt);
                i := i + 1;
            }
        }
      }
    }
  }

  lemma PowerPositive(n: nat)
    ensures Power2(n) >= 1
  {
  }

  lemma {:induction false} DelayBounds(c: RetryConfig, n: nat)
    requires ValidConfig(c) && n >= 1
    ensures 0.0 <= Delay(c, n) <= c.maxDelay
    ensures n == 1 ==> Delay(c, n) == c.initialDelay
    ensures Delay(c, n) <= Delay(c, n + 1)
    ensures Delay(c, n + 1) == if 2.0 * Delay(c, n) < c.maxDelay then 2.0 * Delay(c, n) else c.maxDelay
  {
    var p := Power2(n - 1) as real;
    assert Power2(n) as real == 2.0 * p;
    PowerPositive(n - 1);
    hide Power2;
    Doubling(c.initialDelay, p);
  }

  lemma Doubling(d: real, p: real)
    requires d >= 0.0 && p >= 0.0
    ensures d * p >= 0.0 && d * (2.0 * p) == 2.0 * (d * p)
  {
  }

  /** A failure of the infrastructure whose name can be stored: it uses up an attempt. */
  predicate UsesAttempt(outcome: RunOutcome) {
    outcome.Infrastructure? && ValidErrorType(outcome.name)
  }

  /** The rows after a claimed execution failed on infrastructure with attempts left. */
  function AfterRetry(rows: Rows, c: RetryConfig, name: string, now: int, continuation: bool): Rows
    requires Begin(rows, c, now, continuation).1.Claimed?
  {
    var (claimed, begun) := Begin(rows, c, now, continuation);
    Fail(claimed, begun.attempt, name, true, false, now).0
  }

  lemma AfterRetryFacts(rows: Rows, c: RetryConfig, name: string, now: int, later: int, continuation: bool)
    requires Begin(rows, c, now, continuation).1.Claimed?
    requires Stored(rows.run).attempts + 1 < c.maxAttempts && ValidErrorType(name)
    ensures var next := AfterRetry(rows, c, name, now, continuation);
            && Stored(next.run).attempts == Stored(rows.run).attempts + 1
            && Stored(next.run).cycle == Stored(rows.run).cycle
            && next.ledger == rows.ledger
            && Begin(next, c, later, true).1.Claimed?
  {
  }

  predicate Retries(rows: Rows, c: RetryConfig, outcome: RunOutcome) {
    UsesAttempt(outcome) && Stored(rows.run).attempts + 1 < c.maxAttempts
  }

  lemma {:induction false} ProcessUnfolds(rows: Rows, c: RetryConfig, runOnce: nat -> RunOutcome, clock: nat -> int, i: nat)
    requires Begin(rows, c, clock(i), i > 0).1.Claimed?
    requires Retries(rows, c, runOnce(i))
    ensures Process(rows, c, runOnce, clock, i)
         == Extend(Process(AfterRetry(rows, c, runOnce(i).name, clock(i), i > 0), c, runOnce, clock, i + 1),
                   1, Delay(c, Stored(rows.run).attempts + 1))
  {
  }

  /** `n` delays of `d`, added up. */
  function Delays(n: nat, d: real): real {
    if n == 0 then 0.0 else d + Delays(n - 1, d)
  }

  lemma DelaysScale(m: nat, n: nat, d: real)
    requires m <= n && d >= 0.0
    ensures 0.0 <= Delays(m, d) <= Delays(n, d)
  {
  }

  lemma DelaysProduct(n: nat, d: real)
    ensures Delays(n, d) == (n as real) * d
  {
  }

  /** The back-off after `n` more failed attempts, `failed` of them before. */
  function BackOff(c: RetryConfig, failed: nat, n: nat): real
    decreases n
  {
    if n == 0 then 0.0 else Delay(c, failed + 1) + BackOff(c, failed + 1, n - 1)
  }

  lemma RetriesMeans(rows: Rows, c: RetryConfig, outcome: RunOutcome)
    requires Retries(rows, c, outcome)
    ensures outcome.Infrastructure? && Stored(rows.run).attempts + 1 < c.maxAttempts && ValidErrorType(outcome.name)
  {
  }

  lemma {:induction false} SleepAdds(c: RetryConfig, failed: nat, runs: nat, slept: real)
    requires runs >= 1 && slept == BackOff(c, failed + 1, runs - 1) && 0.0 <= slept <= Delays(runs - 1, c.maxDelay)
    requires 0.0 <= Delay(c, failed + 1) <= c.maxDelay
    ensures Delay(c, failed + 1) + slept == BackOff(c, failed, runs)
    ensures 0.0 <= Delay(c, failed + 1) + slept <= Delays(runs, c.maxDelay)
  {
    hide Delay;
  }

  /** A crash-free `process` runs the graph at most once per remaining attempt and sleeps the delay of each
  failed attempt that another one follows, at most one maximum delay each. */
  lemma {:induction false} ProcessSleeps(
    rows: Rows, c: RetryConfig, runOnce: nat -> RunOutcome, clock: nat -> int, i: nat, p: Processed)
    requires ValidConfig(c)
    requires Begin(rows, c, clock(i), i > 0).1.Claimed?
    requires p == Process(rows, c, runOnce, clock, i)
    ensures 1 <= p.runs <= c.maxAttempts - Stored(rows.run).attempts
    ensures p.slept == BackOff(c, Stored(rows.run).attempts, p.runs - 1)
    ensures 0.0 <= p.slept <= Delays(p.runs - 1, c.maxDelay)
    decreases c.maxAttempts - Stored(rows.run).attempts
  {
    hide Process, Begin, Retries;
    if Retries(rows, c, runOnce(i)) {
      hide ValidConfig, AfterRetry, Delay, BackOff, Delays, Stored;
      RetriesMeans(rows, c, runOnce(i));
      var next := AfterRetry(rows, c, runOnce(i).name, clock(i), i > 0);
      AfterRetryFacts(rows, c, runOnce(i).name, clock(i), clock(i + 1), i > 0);
      ProcessUnfolds(rows, c, runOnce, clock, i);
      var rest := Process(next, c, runOnce, clock, i + 1);
      ProcessSleeps(next, c, runOnce, clock, i + 1, rest);
      DelayBounds(c, Stored(rows.run).attempts + 1);
      SleepAdds(c, Stored(rows.run).attempts, rest.runs, rest.slept);
    } else {
      EndsAtOnce(rows, c, runOnce, clock, i);
    }
  }

  lemma {:induction false} ProcessBounds(rows: Rows, c: RetryConfig, runOnce: nat -> RunOutcome, clock: nat -> int, p: Processed)
    requires ValidConfig(c)
    requires Begin(rows, c, clock(0), false).1.Claimed?
    requires p == Process(rows, c, runOnce, clock, 0)
    ensures 1 <= p.runs <= c.maxAttempts - Stored(rows.run).attempts
    ensures p.slept == BackOff(c, Stored(rows.run).attempts, p.runs - 1)
    ensures 0.0 <= p.slept <= ((c.maxAttempts - 1) as real) * c.maxDelay
  {
    hide Process, Begin, Delays, Delay, BackOff, ValidConfig;
    ConfigBounds(c);
    ProcessSleeps(rows, c, runOnce, clock, 0, p);
    DelaysBound(p.runs - 1, c.maxAttempts - 1, c.maxDelay);
  }

  lemma ConfigBounds(c: RetryConfig)
    requires ValidConfig(c)
    ensures c.maxAttempts >= 1 && c.maxDelay >= 0.0
  {
  }

  lemma DelaysBound(m: nat, n: nat, d: real)
    requires m <= n && d >= 0.0
    ensures Delays(m, d) <= (n as real) * d
  {
    hide Delays;
    DelaysScale(m, n, d);
    DelaysProduct(n, d);
  }

  lemma {:induction false} EndsAtOnce(rows: Rows, c: RetryConfig, runOnce: nat -> RunOutcome, clock: nat -> int, i: nat)
    requires Begin(rows, c, clock(i), i > 0).1.Claimed?
    requires !Retries(rows, c, runOnce(i))
    ensures var p := Process(rows, c, runOnce, clock, i); p.runs == 1 && p.slept == 0.0
    ensures Stored(rows.run).attempts < c.maxAttempts
  {
  }

  /** How many executions, from `i`, fail on infrastructure before the first verdict or the end of
  the budget. */
  function FirstVerdict(runOnce: nat -> RunOutcome, i: nat, budget: nat): (n: nat)
    ensures n <= budget
    ensures n < budget ==> !UsesAttempt(runOnce(i + n))
    ensures forall j | i <= j < i + n :: UsesAttempt(runOnce(j))
    decreases budget
  {
    if budget == 0 || !UsesAttempt(runOnce(i)) then 0 else 1 + FirstVerdict(runOnce, i + 1, budget - 1)
  }

  /** Every attempt failed on infrastructure: dead-lettered at the maximum, once. */
  predicate Exhausted(rows: Rows, c: RetryConfig, name: string, p: Processed) {
    var before, after := Stored(rows.run), Stored(p.rows.run);
    && p.outcome == Raised(name) && p.runs == c.maxAttempts - before.attempts
    && p.rows.run.status == Failed
    && after == RetryState(c.maxAttempts, before.cycle, Some(name), Some(true), true)
    && p.rows.ledger == rows.ledger + [DeadLettered(c.maxAttempts, before.cycle, name, true)]
  }

  /** A failure whose name cannot be stored raises out of `process`: no attempt is used up, nothing is
  recorded and the row stays claimed. */
  predicate Unrecorded(rows: Rows, n: nat, p: Processed) {
    var before, after := Stored(rows.run), Stored(p.rows.run);
    && p.outcome == StoreRaised(InvalidRetryState) && p.rows.ledger == rows.ledger && p.rows.run.status == Running
    && after.attempts == before.attempts + n && after.cycle == before.cycle
  }

  /** After `n` infrastructure failures the execution gave this verdict. */
  predicate Decided(rows: Rows, verdict: RunOutcome, n: nat, p: Processed) {
    var before, after := Stored(rows.run), Stored(p.rows.run);
    && p.runs == n + 1
    && match verdict
       case Infrastructure(_) => Unrecorded(rows, n, p)
       case Business(name) =>
         if !ValidErrorType(name) then Unrecorded(rows, n, p) else
         && p.outcome == Raised(name) && p.rows.run.status == Failed
         && after == RetryState(before.attempts + n + 1, before.cycle, Some(name), Some(false), true)
         && p.rows.ledger == rows.ledger + [DeadLettered(before.attempts + n + 1, before.cycle, name, false)]
       case Returned(status) =>
         && p.rows.ledger == rows.ledger
         && if status in {AwaitingReview, GraphCompleted, GraphRejected}
            then p.outcome == Finished(status) && p.rows.run.error == None
                 && p.rows.run.status == if status == AwaitingReview then Paused else Completed
            else p.outcome == StoreRaised(NotSettled) && p.rows.run.status == Running
       case _ => // a cancelled or busy execution consumes no attempt
         && p.outcome == (if verdict == Interrupted then CancelledByCaller else Busy)
         && p.rows.ledger == rows.ledger && p.rows.run.status == Running
         && after.attempts == before.attempts + n && after.cycle == before.cycle
  }

  /** Without a claim nothing is written: a refusal is raised without an execution, and a run that is paused or
  completed already is executed once more and its verdict handed on. */
  lemma {:induction false} ProcessUnclaimed(rows: Rows, c: RetryConfig, runOnce: nat -> RunOutcome, clock: nat -> int, p: Processed)
    requires !Begin(rows, c, clock(0), false).1.Claimed? && p == Process(rows, c, runOnce, clock, 0)
    ensures p.rows == rows && p.slept == 0.0
    ensures if rows.run.status in {Paused, Completed}
            then p.runs == 1 && p.outcome == (match runOnce(0)
                                              case Returned(status) => Finished(status)
                                              case AlreadyRunning => Busy
                                              case Interrupted => CancelledByCaller
                                              case failure => Raised(failure.name))
            else p.runs == 0 && p.outcome.StoreRaised? && p.outcome.error in {InDeadLetter, CancelledRun, InProgress, BudgetExhausted}
  {
  }

  predicate Verdict(rows: Rows, c: RetryConfig, runOnce: nat -> RunOutcome, i: nat, n: nat, p: Processed) {
    if n + Stored(rows.run).attempts == c.maxAttempts
    then n > 0 && Exhausted(rows, c, (match runOnce(i + n - 1) case Infrastructure(name) => name case _ => ""), p)
    else Decided(rows, runOnce(i + n), n, p)
  }

  lemma {:induction false} VerdictAfterRetry(
    rows: Rows, next: Rows, c: RetryConfig, runOnce: nat -> RunOutcome, i: nat, n: nat, p: Processed, d: real)
    requires Stored(next.run).attempts == Stored(rows.run).attempts + 1
    requires Stored(next.run).cycle == Stored(rows.run).cycle && next.ledger == rows.ledger
    requires Verdict(next, c, runOnce, i + 1, n, p)
    ensures Verdict(rows, c, runOnce, i, n + 1, Extend(p, 1, d))
  {
  }

  /** What a claimed, crash-free `process` leaves behind, in terms of the first verdict alone. */
  lemma {:induction false} ProcessVerdict(
    rows: Rows, c: RetryConfig, runOnce: nat -> RunOutcome, clock: nat -> int, i: nat, n: nat, p: Processed)
    requires ValidConfig(c)
    requires Begin(rows, c, clock(i), i > 0).1.Claimed?
    requires p == Process(rows, c, runOnce, clock, i)
    requires n == FirstVerdict(runOnce, i, c.maxAttempts - Stored(rows.run).attempts)
    ensures Verdict(rows, c, runOnce, i, n, p)
    decreases c.maxAttempts - Stored(rows.run).attempts
  {
    var budget := c.maxAttempts - Stored(rows.run).attempts;
    if Retries(rows, c, runOnce(i)) {
      hide Verdict, Process, FirstVerdict, Begin, AfterRetry, Delay, Extend;
      var next := AfterRetry(rows, c, runOnce(i).name, clock(i), i > 0);
      AfterRetryFacts(rows, c, runOnce(i).name, clock(i), clock(i + 1), i > 0);
      ProcessUnfolds(rows, c, runOnce, clock, i);
      FirstVerdictRetries(runOnce, i, budget);
      var rest := Process(next, c, runOnce, clock, i + 1);
      ProcessVerdict(next, c, runOnce, clock, i + 1, n - 1, rest);
      VerdictAfterRetry(rows, next, c, runOnce, i, n - 1, rest, Delay(c, Stored(rows.run).attempts + 1));
    } else {
      hide Process, Exhausted, Decided;
      VerdictAtOnce(rows, c, runOnce, clock, i);
    }
  }

  lemma {:induction false} FirstVerdictRetries(runOnce: nat -> RunOutcome, i: nat, budget: nat)
    requires budget > 0 && UsesAttempt(runOnce(i))
    ensures FirstVerdict(runOnce, i, budget) == 1 + FirstVerdict(runOnce, i + 1, budget - 1)
  {
  }

  lemma {:induction false} VerdictAtOnce(rows: Rows, c: RetryConfig, runOnce: nat -> RunOutcome, clock: nat -> int, i: nat)
    requires Begin(rows, c, clock(i), i > 0).1.Claimed?
    requires !Retries(rows, c, runOnce(i))
    ensures var p := Process(rows, c, runOnce, clock, i);
            if UsesAttempt(runOnce(i)) then Exhausted(rows, c, runOnce(i).name, p) else Decided(rows, runOnce(i), 0, p)
  {
  }
}
