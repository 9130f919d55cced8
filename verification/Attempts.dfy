/** Attempts, dead letters and completion over whole runs, stale workers included. */
module Attempts {
  import opened Domain
  import opened Graph
  import opened Services
  import Worker
  import opened Decisions
  import opened Protocol
  import opened GraphInvariant
  import opened Invariant

  // ---------------------------------------------------------------- completion is final

  /** Everything a completed run shows: its row, invoice, exception, decisions and evidence. */
  predicate SameOutcome(a: Rows, b: Rows) {
    && a.run == b.run && a.invoice == b.invoice && a.exc == b.exc && Mine(a) == Mine(b)
    && Evidences(a.ledger) == Evidences(b.ledger)
  }

  lemma ArchivedIsLast(w: GraphState, next: Option<Node>)
    ensures KReject in KindsThrough(w, next) ==> KArchive !in KindsThrough(w, next)
  {
  }

  /** Once archived or rejected, the executor has nothing left to commit. */
  lemma {:induction false} NothingToCommit(c: Checkpoint, x: Exec, events: seq<Event>)
    requires CheckpointInv(c, events) && ExecInv(c, x, events) && |x.got| < |Kinds(x.node)|
    requires Latest(events, KArchive).Some? || Latest(events, KReject).Some?
    ensures |KindsDone(c.w, c.next)| + |x.got| != |events|
  {
    var n, ks := |KindsDone(c.w, c.next)|, KindsThrough(c.w, c.next);
    ArchivedIsLast(c.w, c.next);
    hide KindsThrough, KindsDone, Positioned, Chained, SnapshotMatches, TailGrounded, Kinds, Work, Latest;
    hide Executing, KindOf;
    if n + |x.got| == |events| {
      NextAligned(x, ks, n, events);
      RejectRanksLast(NextKind(x));
      NothingLater(c, x, events, KReject);
      if NextKind(x) != KReject {
        NothingLater(c, x, events, KArchive);
      } else {
        assert ks[|events|] in ks;
        LatestAbsent(events, ks, KArchive);
      }
    }
  }

  lemma RejectRanksLast(k: Kind)
    ensures Rank(k) <= Rank(KReject) && (k != KReject ==> Rank(k) <= Rank(KArchive))
  {
  }

  lemma {:induction false} EndedWrite(c: Checkpoint, x: Exec, rows: Rows, answer: Event, newId: nat)
    requires CheckpointInv(c, Evidences(rows.ledger)) && ExecInv(c, x, Evidences(rows.ledger))
    requires x.looked && |x.got| < |Kinds(x.node)|
    requires var events := Evidences(rows.ledger); Latest(events, KArchive).Some? || Latest(events, KReject).Some?
    requires rows.exc.Some? <==> Latest(rows.ledger, KTriage).Some?
    ensures WriteEvidence(x, rows, answer, newId).0 == rows
  {
    hide CheckpointInv, ExecInv, Evidences, Kinds, WriteEvidence, Work, Latest, KindsDone, Grounded, KindOf;
    hide CommitEvent, For;
    WriteShape(x, rows, answer, newId);
    NextEvidence(c, x, rows.ledger, Evidences(rows.ledger), |KindsDone(c.w, c.next)| + |x.got|);
    TriageNode(x.node, |x.got|);
    NothingToCommit(c, x, Evidences(rows.ledger));
  }

  lemma {:induction false} CommitChangesNothing(s: State, p: Params, answer: Event, newId: nat)
    requires Inv(s, p) && s.rows.run.status == Completed
    ensures Commit(s, answer, newId).rows == s.rows
  {
    hide CheckpointInv, ExecInv, TableInv, Evidences, Kinds, WriteEvidence, Latest;
    hide Handled, Reported, FourEyes, ReviewIs, PendingIs, Mine;
    if s.exec.Some? && s.exec.value.looked && |s.exec.value.got| < |Kinds(s.exec.value.node)| {
      LatestEvidence(s.rows.ledger, KTriage);
      EndedWrite(s.ckpt.value, s.exec.value, s.rows, answer, newId);
    }
  }

  lemma ExecutorsKeepRows(s: State, p: Params, step: Step)
    requires step.RunStep? || step.ResumeStep? || step.LookStep? || step.CheckpointStep? || step.CrashStep?
    ensures Apply(s, p, step).rows == s.rows
  {
    hide ReadEvidence, Signoff, ResumePlanFor, Finish, Work, ValidProgress;
  }

  lemma SettledAgain(s: State, p: Params, decisionId: nat, now: int)
    requires Inv(s, p) && s.rows.run.status == Completed
    ensures SettleReview(s.rows, decisionId, now).0 == s.rows
  {
    hide GraphInv, TableInv, Evidences, Latest, For, Reported, Signoff;
    SignoffIsMine(s.rows, decisionId);
  }

  lemma WorkersKeepCompleted(s: State, p: Params, step: Step)
    requires s.rows.run.status == Completed
    requires step.BeginStep? || step.SettleStep? || step.FailStep? || step.RedriveStep?
    ensures Apply(s, p, step).rows == s.rows
  {
    hide Worker.ValidKey, Worker.ValidActor, Worker.ValidReason, Worker.PriorRedrive, Worker.ValidErrorType;
  }

  lemma PeopleKeepOutcome(s: State, p: Params, step: Step)
    requires Inv(s, p) && s.rows.run.status == Completed
    requires step.SubmitStep? || step.ForeignDecisionStep? || step.DuplicateUploadStep?
    ensures SameOutcome(Apply(s, p, step).rows, s.rows)
  {
    hide GraphInv, Evidences, Latest, Submit, RowInv, UniqueKeys, RunInv, For, ByKey, ById, ClaimsInv, StatusOf;
    match step
    case SubmitStep(exceptionId, request, role, key, newId) =>
      SubmittedAfterEnd(s, p, exceptionId, request, role, key, newId);
    case ForeignDecisionStep(d) =>
      if Apply(s, p, step) != s {
        ForeignShape(s.rows, d);
      }
    case DuplicateUploadStep =>
      EvidencesAppend(s.rows.ledger, DuplicateRejected);
      assert Evidences(s.rows.ledger) + [] == Evidences(s.rows.ledger);
  }

  lemma SubmittedAfterEnd(
    s: State, p: Params, exceptionId: nat, request: DecisionRequest, role: Actor, key: string, newId: nat)
    requires Inv(s, p) && s.rows.run.status == Completed
    ensures Submit(s.rows, exceptionId, request, role, key, newId).0 == s.rows
  {
    hide GraphInv, Evidences, Latest, Submit, UniqueKeys, RunInv, For, ClaimsInv, StatusOf, FourEyes, Mine;
    SubmitShape(s.rows, exceptionId, request, role, key, newId);
  }

  lemma {:induction false} CompletedStep(s: State, p: Params, step: Step)
    requires Inv(s, p) && s.rows.run.status == Completed
    ensures SameOutcome(Apply(s, p, step).rows, s.rows)
  {
    hide Inv, Look, Commit, RunEntry, ResumeEntry, WriteCheckpoint, SettleReview, Submit, Mine, Evidences;
    hide Worker.Begin, Worker.Settle, Worker.Fail, Worker.Redrive;
    match step
    case CommitStep(answer, newId) => CommitChangesNothing(s, p, answer, newId);
    case SettleReviewStep(decisionId, now) => SettledAgain(s, p, decisionId, now);
    case SubmitStep(_, _, _, _, _) => PeopleKeepOutcome(s, p, step);
    case ForeignDecisionStep(_) => PeopleKeepOutcome(s, p, step);
    case DuplicateUploadStep => PeopleKeepOutcome(s, p, step);
    case BeginStep(_, _) => WorkersKeepCompleted(s, p, step);
    case SettleStep(_, _) => WorkersKeepCompleted(s, p, step);
    case FailStep(_, _, _, _) => WorkersKeepCompleted(s, p, step);
    case RedriveStep(_, _, _) => WorkersKeepCompleted(s, p, step);
    case _ => ExecutorsKeepRows(s, p, step);
  }

  lemma {:induction false} CompletedStays(s: State, p: Params, more: seq<Step>)
    requires Inv(s, p) && p.retry.maxAttempts >= 1 && s.rows.run.status == Completed
    ensures SameOutcome(Run(s, p, more).rows, s.rows)
  {
    if more != [] {
      hide Inv, Apply, Mine, Evidences;
      CompletedStays(s, p, more[..|more| - 1]);
      RunsKeepInv(s, p, more[..|more| - 1]);
      CompletedStep(Run(s, p, more[..|more| - 1]), p, more[|more| - 1]);
    }
  }

  /** COMPLETED is absorbing: no step of any later run changes the run row, the invoice, the
  exception, its decisions or the workflow evidence. */
  lemma {:induction false} CompletedIsFinal(p: Params, steps: seq<Step>, more: seq<Step>)
    requires p.retry.maxAttempts >= 1
    ensures var s := Run(Init(), p, steps);
            s.rows.run.status == Completed ==> SameOutcome(Run(s, p, more).rows, s.rows)
  {
    hide Run, Inv, SameOutcome;
    InitInv(p);
    RunsKeepInv(Init(), p, steps);
    if Run(Init(), p, steps).rows.run.status == Completed {
      CompletedStays(Run(Init(), p, steps), p, more);
    }
  }

  /** A completed run never leaves an exception open: it was archived or rejected, and an exception
  it had was settled by two people with the matching status. */
  lemma {:induction false} CompletedIsSettled(p: Params, steps: seq<Step>)
    requires p.retry.maxAttempts >= 1
    ensures var rows := Run(Init(), p, steps).rows;
            rows.run.status == Completed ==>
              && (Latest(rows.ledger, KArchive).Some? || Latest(rows.ledger, KReject).Some?)
              && (rows.exc.Some? ==>
                    && |Mine(rows)| == 2 && Closes(rows.exc.value.status, Mine(rows)[1].action)
                    && Latest(rows.ledger, KReview) == Some(ReviewRecorded(ReviewOf(Mine(rows)[1])))
                    && Latest(rows.ledger, KArchive).Some?)
  {
    hide Run, GraphInv, TableInv, Evidences, Latest, Mine, Reported, Recorded, FourEyes;
    InitInv(p);
    RunsKeepInv(Init(), p, steps);
    var s := Run(Init(), p, steps);
    LatestEvidence(s.rows.ledger, KArchive);
    LatestEvidence(s.rows.ledger, KReject);
    LatestEvidence(s.rows.ledger, KReview);
  }

  // ---------------------------------------------------------------- dead letters and the attempt budget

  /** Dead letters and redrives alternate, FAILED always carries the record its latest dead-letter event
  names, so the dead-letter listing never fails, timestamps follow the status, and neither the
  exhausted-budget nor the cancelled branch of `begin` is taken. */
  predicate Balanced(rows: Rows, c: Worker.RetryConfig, now: int, continuation: bool) {
    var status, state := rows.run.status, Worker.Stored(rows.run);
    && Count(rows.ledger, IsDeadLetter) == Count(rows.ledger, IsRedrive) + (if status == Failed then 1 else 0)
    && (status == Failed ==>
          && state.deadLettered && state.errorType.Some? && 1 <= state.attempts <= c.maxAttempts
          && LatestDeadLetter(rows.ledger) == Some(RecordOf(state)))
    && (rows.run.startedAt == None <==> status == Queued)
    && (rows.run.completedAt.Some? <==> status in {Completed, Failed})
    && (status in {Queued, Running} ==> state.attempts < c.maxAttempts)
    && Worker.Begin(rows, c, now, continuation).1
       !in {Worker.Refused(Worker.BudgetExhausted), Worker.Refused(Worker.CancelledRun)}
  }

  lemma {:induction false} DeadLettersBalance(p: Params, steps: seq<Step>, now: int, continuation: bool)
    requires p.retry.maxAttempts >= 1
    ensures Balanced(Run(Init(), p, steps).rows, p.retry, now, continuation)
  {
    hide Run, GraphOk, RowsInv, Count, LatestDeadLetter, UniqueKeys, ClaimsInv, StatusOf;
    InitInv(p);
    RunsKeepInv(Init(), p, steps);
  }

  // ---------------------------------------------------------------- what stale workers can do

  const TRIES := Params(Worker.RetryConfig(3, 1.0, 30.0, 300), seq(64, _ => 'a'), false)

  const TIMEOUT := "TimeoutError"

  function Stored(s: State): (nat, nat) {
    (Worker.Stored(s.rows.run).attempts, Worker.Stored(s.rows.run).cycle)
  }

  /** A second worker begins after the first one's lease ran out, and fails twice. */
  const OVERTAKEN: seq<Step> := [
    BeginStep(0, false), BeginStep(300, false), FailStep(RunAttempt(1, 0), TIMEOUT, true, 301),
    BeginStep(302, true), FailStep(RunAttempt(2, 0), TIMEOUT, true, 303)]

  /** Without the lease assumption the stored attempt can go backwards: the first worker then reports
  its own first attempt. */
  lemma AttemptsMayRewind()
    ensures var s := Run(Init(), TRIES, OVERTAKEN);
            Stored(s) == (2, 0) && Stored(Apply(s, TRIES, FailStep(RunAttempt(1, 0), TIMEOUT, true, 304))) == (1, 0)
  {
    TimeoutIsStored();
    hide Worker.ValidErrorType, Look, Commit, RunEntry, ResumeEntry, WriteCheckpoint, SettleReview, Submit, ByKey, ById;
    RunTake(Init(), TRIES, OVERTAKEN, 0);
    RunTake(Init(), TRIES, OVERTAKEN, 1);
    RunTake(Init(), TRIES, OVERTAKEN, 2);
    RunTake(Init(), TRIES, OVERTAKEN, 3);
    RunTake(Init(), TRIES, OVERTAKEN, 4);
    assert OVERTAKEN[..5] == OVERTAKEN;
  }

  /** The second worker gives up for good, and an operator redrives the run. */
  const REDRIVEN: seq<Step> := [
    BeginStep(0, false), BeginStep(300, false), FailStep(RunAttempt(1, 0), TIMEOUT, false, 301),
    RedriveStep("k", "a", "r"), BeginStep(302, false)]

  /** Without the lease assumption even the redrive cycle can go backwards. */
  lemma CyclesMayRewind()
    ensures var s := Run(Init(), TRIES, REDRIVEN);
            Stored(s) == (0, 1) && Stored(Apply(s, TRIES, FailStep(RunAttempt(1, 0), TIMEOUT, true, 303))) == (1, 0)
  {
    RedriveTexts();
    TimeoutIsStored();
    hide Worker.ValidErrorType, Worker.ValidKey, Worker.ValidActor, Worker.ValidReason;
    hide Look, Commit, RunEntry, ResumeEntry, WriteCheckpoint, SettleReview, Submit, ByKey, ById;
    RunTake(Init(), TRIES, REDRIVEN, 0);
    RunTake(Init(), TRIES, REDRIVEN, 1);
    RunTake(Init(), TRIES, REDRIVEN, 2);
    var failed := Run(Init(), TRIES, REDRIVEN[..3]);
    NoRedriveYet(failed.rows.ledger);
    RunTake(Init(), TRIES, REDRIVEN, 3);
    RunTake(Init(), TRIES, REDRIVEN, 4);
    assert REDRIVEN[..5] == REDRIVEN;
  }

  lemma TimeoutIsStored()
    ensures Worker.ValidErrorType(TIMEOUT)
  {
  }

  lemma RedriveTexts()
    ensures Worker.ValidKey("k") && Worker.ValidActor("a") && Worker.ValidReason("r")
  {
    assert !Blank("r"[0]);
  }

  lemma NoRedriveYet(ledger: seq<Event>)
    requires |ledger| == 2 && !ledger[0].Redriven? && !ledger[1].Redriven?
    ensures Worker.PriorRedrive(ledger, "k") == None
  {
    assert Worker.PriorRedrive(ledger[..1], "k") == None;
  }
}
