/** The lease of a claim: when every attempt and its back-off end before the lease does, claims
never overlap (graph/worker.py). Time is an integer number of seconds. */
module Lease {
  import opened Domain
  import opened Worker

  datatype Phase = Working | BackingOff

  datatype Claim = Claim(attempt: RunAttempt, begunAt: int, phase: Phase)

  /** `live` holds the claim of every worker that has not finished, given up or crashed. */
  datatype Shop = Shop(rows: Rows, live: map<nat, Claim>, now: int)

  datatype Move =
    | Tick(to: int)
    | Start(worker: nat)
    | Continue(worker: nat)
    | Report(worker: nat, errorType: string, retryable: bool)
    | Finish(worker: nat, status: GraphStatus)
    | Vanish(worker: nat)
    | Operator(key: string, actor: string, reason: string)
    | Elsewhere(rows: Rows) // somebody else's transaction

  /** The timing assumption: time never reaches the end of a live claim's lease. */
  predicate WithinLease(live: map<nat, Claim>, c: RetryConfig, now: int) {
    forall w <- live :: now < live[w].begunAt + c.leaseSeconds
  }

  function Without(live: map<nat, Claim>, worker: nat): map<nat, Claim> {
    map w | w in live && w != worker :: live[w]
  }

  function Claiming(s: Shop, c: RetryConfig, worker: nat, continuation: bool): Shop {
    match Begin(s.rows, c, s.now, continuation)
    case (rows, Claimed(a)) => Shop(rows, s.live[worker := Claim(a, s.now, Working)], s.now)
    case (rows, _) => Shop(rows, Without(s.live, worker), s.now)
  }

  /** What transactions of others keep: the run row, which only a settled review completes, and the redrives. */
  predicate LeavesClaims(before: Rows, after: Rows) {
    && (after.run == before.run || (before.run.status == Paused && after.run.status == Completed))
    && Count(after.ledger, IsRedrive) == Count(before.ledger, IsRedrive)
  }

  /** A failure that is not retried. */
  predicate GivesUp(a: RunAttempt, c: RetryConfig, retryable: bool) {
    !retryable || a.attempt >= c.maxAttempts
  }

  /** One move of a worker, of time or of an operator; a move that is not enabled changes nothing. */
  function Moved(s: Shop, c: RetryConfig, move: Move): Shop {
    match move
    case Tick(to) => if s.now <= to && WithinLease(s.live, c, to) then s.(now := to) else s
    case Start(w) => if w in s.live then s else Claiming(s, c, w, false)
    case Continue(w) => if w !in s.live || s.live[w].phase != BackingOff then s else Claiming(s, c, w, true)
    case Report(w, errorType, retryable) =>
      if w !in s.live || s.live[w].phase != Working then s
      else
        var a := s.live[w].attempt;
        var terminal := GivesUp(a, c, retryable);
        var (rows, r) := Fail(s.rows, a, errorType, retryable, terminal, s.now);
        Shop(rows, if terminal || r.Err? then Without(s.live, w) else s.live[w := s.live[w].(phase := BackingOff)], s.now)
    case Finish(w, status) =>
      if w !in s.live || s.live[w].phase != Working then s
      else Shop(Settle(s.rows, status, s.now).0, Without(s.live, w), s.now)
    case Vanish(w) => s.(live := Without(s.live, w))
    case Operator(key, actor, reason) => s.(rows := Redrive(s.rows, key, actor, reason).0)
    case Elsewhere(rows) => if LeavesClaims(s.rows, rows) then s.(rows := rows) else s
  }

  function Moves(s: Shop, c: RetryConfig, moves: seq<Move>): Shop {
    if moves == [] then s else Moved(Moves(s, c, moves[..|moves| - 1]), c, moves[|moves| - 1])
  }

  function Opening(now: int): Shop {
    Shop(Rows(RunRow(Queued, None, None, None), InQueue, None, [], [IngestAccepted]), map[], now)
  }

  // ---------------------------------------------------------------- the invariant

  /** A live claim is the one the run row records. */
  predicate Holds(run: RunRow, c: RetryConfig, claim: Claim, now: int) {
    && run.status == Running && run.startedAt == Some(claim.begunAt) && now < claim.begunAt + c.leaseSeconds
    && claim.attempt.cycle == Stored(run).cycle
    && claim.attempt.attempt == Stored(run).attempts + (if claim.phase == Working then 1 else 0)
    && (claim.phase == BackingOff ==> Stored(run).attempts < c.maxAttempts)
    && claim.attempt.attempt <= c.maxAttempts
  }

  predicate Tidy(s: Shop, c: RetryConfig) {
    && (forall w <- s.live :: Holds(s.rows.run, c, s.live[w], s.now))
    && (forall v, w | v in s.live && w in s.live :: v == w)
    && (s.rows.run.status in {Queued, Running, Failed} ==> Stored(s.rows.run).cycle == Count(s.rows.ledger, IsRedrive))
  }

  lemma StartKeeps(s: Shop, c: RetryConfig, w: nat)
    requires Tidy(s, c) && c.leaseSeconds > 0 && w !in s.live
    ensures Tidy(Claiming(s, c, w, false), c)
  {
    hide Count;
  }

  lemma ContinueKeeps(s: Shop, c: RetryConfig, w: nat)
    requires Tidy(s, c) && c.leaseSeconds > 0 && w in s.live && s.live[w].phase == BackingOff
    ensures Tidy(Claiming(s, c, w, true), c)
  {
    hide Count;
  }

  /** What a report does to a running row. */
  lemma FailFacts(rows: Rows, a: RunAttempt, errorType: string, retryable: bool, terminal: bool, now: int)
    requires rows.run.status == Running
    ensures var (after, r) := Fail(rows, a, errorType, retryable, terminal, now);
            && Count(after.ledger, IsRedrive) == Count(rows.ledger, IsRedrive)
            && (r.Ok? <==> ValidErrorType(errorType))
            && (r.Err? ==> after == rows)
            && (r.Ok? ==> after.run.status == (if terminal then Failed else Running) && after.run.startedAt == rows.run.startedAt
                          && Stored(after.run).attempts == a.attempt && Stored(after.run).cycle == a.cycle)
  {
    hide ValidErrorType;
    CountAppend(rows.ledger, DeadLettered(a.attempt, a.cycle, errorType, retryable), IsRedrive);
    hide Count;
  }

  lemma ReportKeeps(s: Shop, c: RetryConfig, w: nat, errorType: string, retryable: bool)
    requires Tidy(s, c)
    ensures Tidy(Moved(s, c, Report(w, errorType, retryable)), c)
  {
    hide ValidErrorType, Count, Fail;
    if w in s.live {
      var a := s.live[w].attempt;
      FailFacts(s.rows, a, errorType, retryable, GivesUp(a, c, retryable), s.now);
      var failed := Fail(s.rows, a, errorType, retryable, GivesUp(a, c, retryable), s.now);
      assert s.live[w].phase == Working ==> Moved(s, c, Report(w, errorType, retryable)).rows == failed.0;
      assert Holds(s.rows.run, c, s.live[w], s.now);
    }
  }

  lemma OperatorKeeps(s: Shop, c: RetryConfig, key: string, actor: string, reason: string)
    requires Tidy(s, c)
    ensures Tidy(Moved(s, c, Operator(key, actor, reason)), c)
  {
    hide ValidKey, ValidActor, ValidReason, PriorRedrive;
    var cycle := Stored(s.rows.run).cycle;
    CountAppend(s.rows.ledger, Redriven(key, actor, reason, cycle, cycle + 1), IsRedrive);
    hide Count;
  }

  lemma MoveKeeps(s: Shop, c: RetryConfig, move: Move)
    requires Tidy(s, c) && c.leaseSeconds > 0
    ensures Tidy(Moved(s, c, move), c)
  {
    hide Count, Redrive, Fail;
    match move
    case Start(w) => if w !in s.live { StartKeeps(s, c, w); }
    case Continue(w) => if w in s.live && s.live[w].phase == BackingOff { ContinueKeeps(s, c, w); }
    case Report(w, errorType, retryable) => ReportKeeps(s, c, w, errorType, retryable);
    case Operator(key, actor, reason) => OperatorKeeps(s, c, key, actor, reason);
    case _ =>
  }

  lemma {:induction false} MovesKeep(s: Shop, c: RetryConfig, moves: seq<Move>)
    requires Tidy(s, c) && c.leaseSeconds > 0
    ensures Tidy(Moves(s, c, moves), c)
  {
    if moves != [] {
      hide Moved, Tidy;
      MovesKeep(s, c, moves[..|moves| - 1]);
      MoveKeeps(Moves(s, c, moves[..|moves| - 1]), c, moves[|moves| - 1]);
    }
  }

  lemma OpeningTidy(c: RetryConfig, now: int)
    ensures Tidy(Opening(now), c)
  {
    assert Count([IngestAccepted], IsRedrive) == 0;
  }

  /** With the timing assumption two live claims never coexist, the one there is carries the next
  attempt of the current cycle, and the cycle counts the redrives until the run settles. */
  lemma OneClaimAtATime(c: RetryConfig, now: int, moves: seq<Move>)
    requires ValidConfig(c)
    ensures var s := Moves(Opening(now), c, moves);
            && |s.live| <= 1
            && (forall w <- s.live :: Holds(s.rows.run, c, s.live[w], s.now))
            && (s.rows.run.status in {Queued, Running, Failed} ==>
                  Stored(s.rows.run).cycle == Count(s.rows.ledger, IsRedrive))
  {
    OpeningTidy(c, now);
    hide Moves, Holds;
    MovesKeep(Opening(now), c, moves);
    AtMostOne(Moves(Opening(now), c, moves).live);
  }

  lemma AtMostOne(live: map<nat, Claim>)
    requires forall v, w | v in live && w in live :: v == w
    ensures |live| <= 1
  {
    if live != map[] {
      var v :| v in live;
      assert live.Keys == {v};
      assert |live| == |live.Keys|;
    }
  }

  // ---------------------------------------------------------------- progress of attempts

  /** The stored counters never go back: attempts rise within a cycle, and the cycle with a redrive. */
  predicate Advances(before: RetryState, after: RetryState) {
    after.cycle > before.cycle || (after.cycle == before.cycle && after.attempts >= before.attempts)
  }

  predicate Unsettled(run: RunRow) {
    run.status in {Queued, Running, Failed}
  }

  lemma MoveAdvances(s: Shop, c: RetryConfig, move: Move)
    requires Tidy(s, c) && c.leaseSeconds > 0 && Unsettled(s.rows.run)
    ensures var t := Moved(s, c, move);
            && (Unsettled(t.rows.run) ==> Advances(Stored(s.rows.run), Stored(t.rows.run)))
            && (move.Report? && move.worker in s.live && s.live[move.worker].phase == Working ==>
                  if ValidErrorType(move.errorType)
                  then Stored(t.rows.run).attempts == Stored(s.rows.run).attempts + 1
                       && Stored(t.rows.run).cycle == Stored(s.rows.run).cycle
                  else t.rows == s.rows && move.worker !in t.live)
  {
    hide Count, ValidErrorType, ValidKey, ValidActor, ValidReason, PriorRedrive;
  }

  lemma SettledForGood(s: Shop, c: RetryConfig, move: Move)
    requires !Unsettled(s.rows.run)
    ensures !Unsettled(Moved(s, c, move).rows.run)
  {
    hide ValidKey, ValidActor, ValidReason, ValidErrorType, PriorRedrive;
  }

  lemma {:induction false} MovesAdvance(s: Shop, c: RetryConfig, moves: seq<Move>)
    requires Tidy(s, c) && c.leaseSeconds > 0
    ensures Unsettled(Moves(s, c, moves).rows.run) ==>
              Unsettled(s.rows.run) && Advances(Stored(s.rows.run), Stored(Moves(s, c, moves).rows.run))
  {
    if moves != [] {
      hide Moved, Tidy, Stored, Unsettled;
      var before := Moves(s, c, moves[..|moves| - 1]);
      MovesAdvance(s, c, moves[..|moves| - 1]);
      MovesKeep(s, c, moves[..|moves| - 1]);
      if Unsettled(before.rows.run) {
        MoveAdvances(before, c, moves[|moves| - 1]);
      } else {
        SettledForGood(before, c, moves[|moves| - 1]);
      }
    }
  }

  /** Between any two moments of a run under the timing assumption, until it settles, persisted
  attempts and cycles only advance. */
  lemma AttemptsNeverRewind(c: RetryConfig, now: int, moves: seq<Move>, more: seq<Move>)
    requires ValidConfig(c)
    ensures var s := Moves(Opening(now), c, moves);
            var t := Moves(s, c, more);
            Unsettled(t.rows.run) ==> Advances(Stored(s.rows.run), Stored(t.rows.run))
  {
    OpeningTidy(c, now);
    hide Moves, Stored;
    MovesKeep(Opening(now), c, moves);
    MovesAdvance(Moves(Opening(now), c, moves), c, more);
  }

  /** The assumption is tight: an attempt that lasts exactly the lease already lets a second worker
  claim the run. */
  lemma ExactLeaseOverlaps(c: RetryConfig)
    requires ValidConfig(c)
    ensures var first := Claiming(Opening(0), c, 0, false);
            var late := first.(now := c.leaseSeconds);
            var both := Claiming(late, c, 1, false);
            0 in both.live && 1 in both.live && !WithinLease(first.live, c, c.leaseSeconds)
            && WithinLease(first.live, c, c.leaseSeconds - 1)
  {
  }
}
