/** The combined protocol under the lease's timing assumption: every run of it in which workers respect
their leases is a run of the lease's state machine, so what holds there holds here. */
module Leased {
  import opened Domain
  import opened Graph
  import opened Services
  import Worker
  import opened Decisions
  import opened Protocol
  import opened GraphInvariant
  import opened Invariant
  import opened Lease

  /** The protocol's state, the claims of the workers that are still at work, and the time. */
  datatype Floor = Floor(s: State, live: map<nat, Claim>, now: int)

  datatype Happening =
    | Time(to: int)
    | Starts(worker: nat)
    | Continues(worker: nat)
    | Reports(worker: nat, errorType: string, retryable: bool)
    | Settles(worker: nat, status: GraphStatus)
    | Vanishes(worker: nat)
    | Others(step: Step)

  /** A worker that is executing its attempt. */
  predicate AtWork(f: Floor, worker: nat) {
    worker in f.live && f.live[worker].phase == Working
  }

  predicate OfWorker(step: Step) {
    step.BeginStep? || step.SettleStep? || step.FailStep?
  }

  /** The protocol's step, if the happening is one: workers act on their own live claims only. */
  function StepOf(f: Floor, h: Happening): Option<Step> {
    match h
    case Starts(w) => if w in f.live then None else Some(BeginStep(f.now, false))
    case Continues(w) => if w !in f.live || f.live[w].phase != BackingOff then None else Some(BeginStep(f.now, true))
    case Reports(w, errorType, retryable) =>
      if AtWork(f, w) then Some(FailStep(f.live[w].attempt, errorType, retryable, f.now)) else None
    case Settles(w, status) =>
      if AtWork(f, w) && status in f.s.returned then Some(SettleStep(status, f.now)) else None
    case Others(step) => if OfWorker(step) then None else Some(step)
    case _ => None
  }

  /** The same happening for the lease. */
  function MoveOf(f: Floor, p: Params, h: Happening): Move {
    match h
    case Time(to) => Tick(to)
    case Starts(w) => Start(w)
    case Continues(w) => Lease.Continue(w)
    case Reports(w, errorType, retryable) => Report(w, errorType, retryable)
    case Settles(w, status) => if status in f.s.returned then Lease.Finish(w, status) else Elsewhere(f.s.rows)
    case Vanishes(w) => Vanish(w)
    case Others(RedriveStep(key, actor, reason)) => Operator(key, actor, reason)
    case Others(step) => Elsewhere(if OfWorker(step) then f.s.rows else Apply(f.s, p, step).rows)
  }

  function ShopOf(f: Floor): Shop {
    Shop(f.s.rows, f.live, f.now)
  }

  function Happens(f: Floor, p: Params, h: Happening): Floor {
    var moved := Moved(ShopOf(f), p.retry, MoveOf(f, p, h));
    Floor(if StepOf(f, h).Some? then Apply(f.s, p, StepOf(f, h).value) else f.s, moved.live, moved.now)
  }

  function Day(p: Params, start: int, hs: seq<Happening>): Floor {
    if hs == [] then Floor(Init(), map[], start) else Happens(Day(p, start, hs[..|hs| - 1]), p, hs[|hs| - 1])
  }

  function StepsOf(p: Params, start: int, hs: seq<Happening>): seq<Step> {
    if hs == [] then []
    else
      var front, step := hs[..|hs| - 1], StepOf(Day(p, start, hs[..|hs| - 1]), hs[|hs| - 1]);
      StepsOf(p, start, front) + if step.Some? then [step.value] else []
  }

  function MovesOf(p: Params, start: int, hs: seq<Happening>): seq<Move> {
    if hs == [] then []
    else MovesOf(p, start, hs[..|hs| - 1]) + [MoveOf(Day(p, start, hs[..|hs| - 1]), p, hs[|hs| - 1])]
  }

  // ---------------------------------------------------------------- the protocol's part

  /** Every day is a run of the protocol. */
  lemma {:induction false} DayIsRun(p: Params, start: int, hs: seq<Happening>)
    ensures Day(p, start, hs).s == Run(Init(), p, StepsOf(p, start, hs))
  {
    if hs != [] {
      hide Apply, StepOf, Moved, MoveOf;
      var front := hs[..|hs| - 1];
      DayIsRun(p, start, front);
      var step := StepOf(Day(p, start, front), hs[|hs| - 1]);
      if step.Some? {
        var steps := StepsOf(p, start, front) + [step.value];
        assert steps[..|steps| - 1] == StepsOf(p, start, front);
      } else {
        assert StepsOf(p, start, front) + [] == StepsOf(p, start, front);
      }
    }
  }

  // ---------------------------------------------------------------- the lease's part

  /** Live claims were issued by the protocol. */
  predicate Issued(f: Floor) {
    forall w <- f.live :: f.live[w].attempt in f.s.claims
  }

  lemma WritesNoRedrive(x: Exec, rows: Rows, answer: Event, newId: nat)
    requires |x.got| < |Kinds(x.node)|
    ensures LeavesClaims(rows, WriteEvidence(x, rows, answer, newId).0)
  {
    hide Work, Kinds, Latest, Ready, Fresh, Grounded, Count;
    var k := NextKind(x);
    if Ready(k, Work(x), x.env) && Fresh(k, answer, Work(x), x.env) {
      FreshFacts(k, answer, Work(x), x.env);
      CountAppend(rows.ledger, answer, IsRedrive);
    }
  }

  lemma OneMore(before: Rows, after: Rows)
    requires after.run == before.run && |after.ledger| == |before.ledger| + 1 && after.ledger[..|before.ledger|] == before.ledger
    requires !after.ledger[|before.ledger|].Redriven?
    ensures LeavesClaims(before, after)
  {
    assert after.ledger == before.ledger + [after.ledger[|before.ledger|]];
    CountAppend(before.ledger, after.ledger[|before.ledger|], IsRedrive);
    hide Count;
  }

  lemma {:induction false} OthersLeaveClaims(s: State, p: Params, step: Step)
    requires !OfWorker(step) && !step.RedriveStep?
    ensures LeavesClaims(s.rows, Apply(s, p, step).rows) && Apply(s, p, step).claims == s.claims
  {
    hide Count, WriteEvidence, ReadEvidence, Kinds, Graph.Finish, Work, ValidProgress, Signoff, Latest, ResumePlanFor;
    hide ByKey, ById, For, Objection, SameContent, ValidRequest;
    match step
    case CommitStep(answer, newId) =>
      if s.exec.Some? && s.exec.value.looked && |s.exec.value.got| < |Kinds(s.exec.value.node)| {
        WritesNoRedrive(s.exec.value, s.rows, answer, newId);
      }
    case DuplicateUploadStep => OneMore(s.rows, Apply(s, p, step).rows);
    case SubmitStep(_, _, _, _, _) => if Apply(s, p, step).rows != s.rows { OneMore(s.rows, Apply(s, p, step).rows); }
    case _ =>
  }

  /** What happens on the floor is what the lease calls it. */
  lemma {:induction false} HappeningIsMove(f: Floor, p: Params, h: Happening)
    requires Issued(f)
    ensures ShopOf(Happens(f, p, h)) == Moved(ShopOf(f), p.retry, MoveOf(f, p, h))
    ensures Issued(Happens(f, p, h))
  {
    hide Count, Worker.Settle, Worker.Fail, Worker.Redrive;
    match h
    case Others(step) =>
      if !OfWorker(step) && !step.RedriveStep? {
        hide Apply;
        OthersLeaveClaims(f.s, p, step);
      }
    case _ =>
  }

  lemma {:induction false} DayIsLeased(p: Params, start: int, hs: seq<Happening>)
    ensures ShopOf(Day(p, start, hs)) == Moves(Opening(start), p.retry, MovesOf(p, start, hs))
    ensures Issued(Day(p, start, hs))
  {
    if hs != [] {
      hide Happens, Moved, MoveOf;
      var front, moves := hs[..|hs| - 1], MovesOf(p, start, hs);
      DayIsLeased(p, start, front);
      HappeningIsMove(Day(p, start, front), p, hs[|hs| - 1]);
      assert moves[..|moves| - 1] == MovesOf(p, start, front);
    }
  }

  /** A settlement is taken, and so is a failure whose name can be stored. */
  predicate Welcome(rows: Rows, a: RunAttempt, now: int, status: GraphStatus, errorType: string, retryable: bool, terminal: bool) {
    && (Proof(status).Some? ==> Worker.Settle(rows, status, now).1.Ok?)
    && (Worker.Fail(rows, a, errorType, retryable, terminal, now).1.Ok? <==> Worker.ValidErrorType(errorType))
  }

  lemma HeldIsWelcome(
    rows: Rows, c: Worker.RetryConfig, claim: Claim, now: int,
    status: GraphStatus, errorType: string, retryable: bool, terminal: bool)
    requires Holds(rows.run, c, claim, now)
    ensures Welcome(rows, claim.attempt, now, status, errorType, retryable, terminal)
  {
    hide Worker.ValidErrorType;
  }

  /** In the whole protocol, with every other step of it interleaved: while workers end their attempts and
  back-offs within their leases, at most one claim is live, it is one the protocol issued, the run row
  records it, and no report or settlement of its worker is turned away, except a failure whose name
  cannot be stored. */
  lemma {:induction false} OneClaimInProtocol(p: Params, start: int, hs: seq<Happening>)
    requires Worker.ValidConfig(p.retry)
    ensures var f := Day(p, start, hs);
            && f.s == Run(Init(), p, StepsOf(p, start, hs))
            && |f.live| <= 1
            && (forall w <- f.live :: f.live[w].attempt in f.s.claims && Holds(f.s.rows.run, p.retry, f.live[w], f.now))
            && (forall w, status, errorType, retryable, terminal | w in f.live ::
                  Welcome(f.s.rows, f.live[w].attempt, f.now, status, errorType, retryable, terminal))
  {
    hide Day, Moves, Run, Holds, Worker.ValidConfig, Welcome;
    DayIsRun(p, start, hs);
    DayIsLeased(p, start, hs);
    OneClaimAtATime(p.retry, start, MovesOf(p, start, hs));
    var f := Day(p, start, hs);
    assert ShopOf(f).rows == f.s.rows && ShopOf(f).live == f.live && ShopOf(f).now == f.now;
    forall w, status, errorType, retryable, terminal | w in f.live
      ensures Welcome(f.s.rows, f.live[w].attempt, f.now, status, errorType, retryable, terminal)
    {
      HeldIsWelcome(f.s.rows, p.retry, f.live[w], f.now, status, errorType, retryable, terminal);
    }
  }

  // ---------------------------------------------------------------- progress of attempts

  lemma {:induction false} MovesConcat(s: Shop, c: Worker.RetryConfig, first: seq<Move>, more: seq<Move>)
    ensures Moves(s, c, first + more) == Moves(Moves(s, c, first), c, more)
  {
    if more == [] {
      assert first + more == first;
    } else {
      hide Moved;
      MovesConcat(s, c, first, more[..|more| - 1]);
      assert (first + more)[..|first + more| - 1] == first + more[..|more| - 1];
    }
  }

  lemma {:induction false} MovesExtend(p: Params, start: int, hs: seq<Happening>, more: seq<Happening>)
    ensures MovesOf(p, start, hs) <= MovesOf(p, start, hs + more)
  {
    if more == [] {
      assert hs + more == hs;
    } else {
      hide Day, MoveOf;
      MovesExtend(p, start, hs, more[..|more| - 1]);
      assert (hs + more)[..|hs + more| - 1] == hs + more[..|more| - 1];
    }
  }

  /** Between any two moments of such a run of the whole protocol, until it settles, the persisted attempts
  and cycles only advance. */
  lemma {:induction false} AttemptsAdvanceInProtocol(p: Params, start: int, hs: seq<Happening>, more: seq<Happening>)
    requires Worker.ValidConfig(p.retry)
    ensures var before, after := Day(p, start, hs).s.rows.run, Day(p, start, hs + more).s.rows.run;
            Unsettled(after) ==> Advances(Worker.Stored(before), Worker.Stored(after))
  {
    hide Day, Moves, MovesOf, Worker.ValidConfig, Worker.Stored, Unsettled, Advances;
    var first, all := MovesOf(p, start, hs), MovesOf(p, start, hs + more);
    DayIsLeased(p, start, hs);
    DayIsLeased(p, start, hs + more);
    MovesExtend(p, start, hs, more);
    assert all == first + all[|first|..];
    MovesConcat(Opening(start), p.retry, first, all[|first|..]);
    AttemptsNeverRewind(p.retry, start, first, all[|first|..]);
  }
}
