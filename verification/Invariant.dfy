/** What every reachable state of the protocol satisfies, and that every step keeps it. */
module Invariant {
  import opened Domain
  import opened Graph
  import opened Services
  import Worker
  import opened Decisions
  import opened Protocol
  import opened GraphInvariant

  /** The decisions made on this run's exception. */
  function Mine(rows: Rows): seq<Decision> {
    if rows.exc.Some? then For(rows.decisions, rows.exc.value.id) else []
  }

  function Pending(exec: Option<Exec>): Option<ReviewDecision> {
    if exec.Some? then exec.value.env.decision else None
  }

  /** The checkpoint's completed nodes include the one that commits this kind. */
  predicate Recorded(ckpt: Option<Checkpoint>, k: Kind) {
    ckpt.Some? && k in KindsDone(ckpt.value.w, ckpt.value.next)
  }

  /** The evidence kind behind each status a run may report. */
  function Proof(status: GraphStatus): Option<Kind> {
    match status
    case AwaitingReview => Some(KTriage)
    case GraphCompleted => Some(KArchive)
    case GraphRejected => Some(KReject)
    case _ => None
  }

  predicate Reported(returned: set<GraphStatus>, ckpt: Option<Checkpoint>) {
    forall status <- returned :: Proof(status).Some? && Recorded(ckpt, Proof(status).value)
  }

  /** The exception, the decisions on it and the run row move together. */
  predicate Handled(events: seq<Event>, status: RunStatus, exc: ExceptionStatus, mine: seq<Decision>) {
    && (exc == Open <==> mine == [])
    && (exc in {Resolved, Escalated} ==>
          && |mine| == 2 && status == Completed && Closes(exc, mine[1].action)
          && Latest(events, KReview).Some? && Latest(events, KArchive).Some?)
    && (status == Completed ==> exc in {Resolved, Escalated})
  }

  predicate ReviewIs(review: Option<Event>, mine: seq<Decision>) {
    review.Some? ==> |mine| == 2 && review == Some(ReviewRecorded(ReviewOf(mine[1])))
  }

  predicate PendingIs(pending: Option<ReviewDecision>, mine: seq<Decision>) {
    pending.Some? ==> |mine| == 2 && pending == Some(ReviewOf(mine[1]))
  }

  predicate RowInv(
    events: seq<Event>, status: RunStatus, exc: Option<ExceptionRow>, mine: seq<Decision>,
    ckpt: Option<Checkpoint>, returned: set<GraphStatus>, pending: Option<ReviewDecision>)
  {
    && (exc.Some? <==> Latest(events, KTriage).Some?)
    && Reported(returned, ckpt)
    && (status == Paused ==> Recorded(ckpt, KTriage))
    && (status == Completed ==> Latest(events, KArchive).Some? || Latest(events, KReject).Some?)
    && (mine != [] ==> exc.Some? && status in {Paused, Completed})
    && FourEyes(mine)
    && ReviewIs(Latest(events, KReview), mine)
    && PendingIs(pending, mine)
    && (exc.Some? ==> Handled(events, status, exc.value.status, mine))
  }

  /** Dead letters, redrives and the attempt budget of the run row. */
  predicate RunInv(run: RunRow, ledger: seq<Event>, maxAttempts: nat) {
    && Count(ledger, IsDeadLetter) == Count(ledger, IsRedrive) + (if run.status == Failed then 1 else 0)
    && run.status != Cancelled
    && (run.status == Failed ==>
          Worker.Stored(run).deadLettered && Worker.Stored(run).errorType.Some? && 1 <= Worker.Stored(run).attempts <= maxAttempts)
    && (run.status in {Queued, Running} ==> Worker.Stored(run).attempts < maxAttempts && !Worker.Stored(run).deadLettered)
    && (run.status in {Paused, Completed} ==> run.error == None)
    && (run.startedAt == None <==> run.status == Queued)
    && (run.completedAt.Some? <==> run.status in {Completed, Failed})
    && (run.status == Failed ==> LatestDeadLetter(ledger) == Some(RecordOf(Worker.Stored(run))))
  }

  /** The ledger event of a dead letter with this stored state. */
  function RecordOf(state: RetryState): Event {
    DeadLettered(state.attempts, state.cycle, if state.errorType.Some? then state.errorType.value else "",
                 state.retryable == Some(true))
  }

  predicate ClaimsInv(claims: set<RunAttempt>, maxAttempts: nat) {
    forall a <- claims :: 1 <= a.attempt <= maxAttempts
  }

  /** The invoice status the ledger alone accounts for. */
  function StatusOf(ledger: seq<Event>): InvoiceStatus {
    if ledger == [] then InQueue
    else
      var last := ledger[|ledger| - 1];
      if StatusMove(last).Some? then StatusMove(last).value else StatusOf(ledger[..|ledger| - 1])
  }

  predicate RowsInv(s: State) {
    RowInv(Evidences(s.rows.ledger), s.rows.run.status, s.rows.exc, Mine(s.rows), s.ckpt, s.returned, Pending(s.exec))
  }

  predicate GraphOk(s: State) {
    GraphInv(Evidences(s.rows.ledger), s.ckpt, s.exec)
  }

  predicate TableInv(s: State, p: Params) {
    && UniqueKeys(s.rows.decisions)
    && RunInv(s.rows.run, s.rows.ledger, p.retry.maxAttempts)
    && ClaimsInv(s.claims, p.retry.maxAttempts)
    && s.rows.invoice == StatusOf(s.rows.ledger)
  }

  /** The checkpoint belongs to this run's document. */
  predicate InputInv(ckpt: Option<Checkpoint>, p: Params) {
    ckpt.Some? ==>
      ckpt.value.w.duplicate == p.duplicate && ckpt.value.w.contentHash == p.contentHash && ValidHash(p.contentHash)
  }

  predicate Inv(s: State, p: Params) {
    GraphOk(s) && RowsInv(s) && TableInv(s, p) && InputInv(s.ckpt, p)
  }

  // ---------------------------------------------------------------- what recorded evidence implies

  lemma RecordedIsCommitted(c: Checkpoint, events: seq<Event>, k: Kind)
    requires CheckpointInv(c, events) && k in KindsDone(c.w, c.next)
    ensures Latest(events, k).Some?
  {
    hide KindsDone, Positioned, Chained, SnapshotMatches, TailGrounded, KindOf, Latest, Kinds;
    var done, ks := KindsDone(c.w, c.next), KindsThrough(c.w, c.next);
    var i :| 0 <= i < |done| && done[i] == k;
    KindsOrdered(c.w, c.next);
    LatestAligned(events, ks, i);
  }

  lemma DoneTogether(w: GraphState, next: Option<Node>)
    ensures var done := KindsDone(w, next);
            && (KArchive in done && KTriage in KindsThrough(w, next) ==> KReview in done)
            && (KReject in done ==> KTriage !in KindsThrough(w, next))
  {
  }

  /** An archived run that was triaged was reviewed; a rejected run was never triaged. */
  lemma EndMeans(c: Checkpoint, events: seq<Event>)
    requires CheckpointInv(c, events)
    ensures Recorded(Some(c), KArchive) && Latest(events, KTriage).Some? ==> Latest(events, KReview).Some?
    ensures Recorded(Some(c), KReject) ==> Latest(events, KTriage) == None
  {
    hide KindsDone, KindsThrough, Positioned, Chained, SnapshotMatches, TailGrounded, KindOf, Latest, Kinds, Spells;
    var done, ks := KindsDone(c.w, c.next), KindsThrough(c.w, c.next);
    DoneTogether(c.w, c.next);
    if KTriage !in ks {
      LatestAbsent(events, ks, KTriage);
    } else if KArchive in done {
      RecordedIsCommitted(c, events, KReview);
    }
  }

  lemma PositionProof(w: GraphState, next: Option<Node>)
    requires Positioned(w, next)
    ensures Proof(w.status).Some? <==> next == None || next == Some(HumanReview)
    ensures Proof(w.status).Some? ==> Proof(w.status).value in KindsDone(w, next)
  {
  }

  // ---------------------------------------------------------------- steps of the executor

  lemma RecordedMonotone(c: Checkpoint, later: Checkpoint, k: Kind)
    requires KindsDone(later.w, later.next) == KindsThrough(c.w, c.next)
    requires Recorded(Some(c), k)
    ensures Recorded(Some(later), k)
  {
    hide KindsDone, Kinds;
  }

  lemma ReportedMonotone(returned: set<GraphStatus>, c: Checkpoint, later: Checkpoint)
    requires KindsDone(later.w, later.next) == KindsThrough(c.w, c.next) && Reported(returned, Some(c))
    ensures Reported(returned, Some(later))
  {
    hide KindsDone, Kinds, KindsThrough, Recorded;
    forall status | status in returned ensures Proof(status).Some? && Recorded(Some(later), Proof(status).value) {
      RecordedMonotone(c, later, Proof(status).value);
    }
  }

  /** Moving the checkpoint forward keeps the rows' invariant. */
  lemma RowsForward(
    events: seq<Event>, status: RunStatus, exc: Option<ExceptionRow>, mine: seq<Decision>,
    c: Checkpoint, later: Checkpoint, returned: set<GraphStatus>, reported: set<GraphStatus>,
    pending: Option<ReviewDecision>, kept: Option<ReviewDecision>)
    requires RowInv(events, status, exc, mine, Some(c), returned, pending)
    requires later == c || KindsDone(later.w, later.next) == KindsThrough(c.w, c.next)
    requires Positioned(later.w, later.next)
    requires reported == returned || (Proof(later.w.status).Some? && reported == returned + {later.w.status})
    requires kept == pending || kept == None
    ensures RowInv(events, status, exc, mine, Some(later), reported, kept)
  {
    hide KindsDone, KindsThrough, Positioned, Handled, FourEyes, ReviewIs, Proof, Latest;
    if later != c {
      ReportedMonotone(returned, c, later);
      if status == Paused {
        RecordedMonotone(c, later, KTriage);
      }
    }
    PositionProof(later.w, later.next);
  }

  lemma {:induction false} CheckpointKeepsInv(s: State, p: Params)
    requires Inv(s, p)
    ensures Inv(WriteCheckpoint(s), p)
  {
    hide CheckpointInv, ExecInv, RowInv, UniqueKeys, RunInv, ClaimsInv, StatusOf, Evidences, Mine, Finish;
    hide Work, Kinds, Successor, ValidProgress, Positioned;
    if s.exec.Some? && !s.exec.value.looked && |s.exec.value.got| == |Kinds(s.exec.value.node)| {
      var c, x, events := s.ckpt.value, s.exec.value, Evidences(s.rows.ledger);
      var w := Finish(x.node, Work(x));
      var later := Checkpoint(w, Successor(x.node, w));
      CheckpointKeeps(c, x, events);
      CheckpointFacts(c, x, events, later);
      RowsForward(events, s.rows.run.status, s.rows.exc, Mine(s.rows), c, later, s.returned,
                  WriteCheckpoint(s).returned, Pending(s.exec), Pending(WriteCheckpoint(s).exec));
      if later.next.Some? && later.next != Some(HumanReview) {
        StartKeeps(later, x.env.decision, events);
      }
    }
  }

  lemma FinishKeepsInput(node: Node, w: GraphState)
    ensures Finish(node, w).duplicate == w.duplicate && Finish(node, w).contentHash == w.contentHash
  {
  }

  lemma CheckpointFacts(c: Checkpoint, x: Exec, events: seq<Event>, later: Checkpoint)
    requires CheckpointInv(c, events) && ExecInv(c, x, events) && |x.got| == |Kinds(x.node)|
    requires later == Checkpoint(Finish(x.node, Work(x)), Successor(x.node, Finish(x.node, Work(x))))
    ensures KindsDone(later.w, later.next) == KindsThrough(c.w, c.next)
    ensures Positioned(later.w, later.next)
    ensures Proof(later.w.status).Some? <==> later.next == None || later.next == Some(HumanReview)
    ensures later.w.duplicate == c.w.duplicate && later.w.contentHash == c.w.contentHash
  {
    FinishKeepsInput(x.node, Work(x));
    hide KindsThrough, KindsDone, Positioned, Chained, SnapshotMatches, TailGrounded, Finish, Successor, Work;
    hide Kinds, Proof;
    NodeWorked(x, KindsThrough(c.w, c.next), |KindsDone(c.w, c.next)|, events);
    FinishPositioned(x.node, c.w, Work(x));
    FinishKinds(x.node, c.w, Work(x));
    PositionProof(later.w, later.next);
  }

  lemma {:induction false} LookKeepsInv(s: State, p: Params, snapshot: Option<Snapshot>, stalePo: bool)
    requires Inv(s, p)
    ensures Inv(Look(s, snapshot, stalePo), p)
  {
    hide CheckpointInv, ExecInv, UniqueKeys, RunInv, ClaimsInv, StatusOf, Evidences, Mine, Kinds, ReadEvidence;
    hide Handled, Reported, FourEyes, ReviewIs, PendingIs, Latest;
    if s.exec.Some? && !s.exec.value.looked && |s.exec.value.got| < |Kinds(s.exec.value.node)| {
      LookKeeps(s.ckpt.value, s.exec.value, s.rows.ledger, snapshot, stalePo);
      ReadPending(s.exec.value, s.rows.ledger, snapshot, stalePo);
      NoPending(Mine(s.rows));
    }
  }

  lemma NoPending(mine: seq<Decision>)
    ensures PendingIs(None, mine)
  {
  }

  lemma ReadPending(x: Exec, ledger: seq<Event>, snapshot: Option<Snapshot>, stalePo: bool)
    requires |x.got| < |Kinds(x.node)|
    ensures var t := ReadEvidence(x, ledger, snapshot, stalePo); t.Some? ==> Pending(t) == Pending(Some(x))
  {
    hide Ready, Accepts, Latest, Work;
  }

  lemma CrashKeepsInv(s: State, p: Params)
    requires Inv(s, p)
    ensures Inv(s.(exec := None), p)
  {
    hide CheckpointInv, ExecInv, UniqueKeys, RunInv, ClaimsInv, StatusOf, Evidences, Mine;
    hide Handled, Reported, FourEyes, ReviewIs, PendingIs, Latest;
    NoPending(Mine(s.rows));
  }

  lemma InitialCheckpoint(asOf: int, contentHash: string, duplicate: bool)
    ensures CheckpointInv(Checkpoint(InitialState(asOf, contentHash, duplicate), Some(Ingest)), [])
  {
    InitialPositioned(asOf, contentHash, duplicate);
    SettledCheckpoint(Checkpoint(InitialState(asOf, contentHash, duplicate), Some(Ingest)), []);
  }

  lemma InitialInput(asOf: int, p: Params)
    requires ValidHash(p.contentHash)
    ensures InputInv(Some(Checkpoint(InitialState(asOf, p.contentHash, p.duplicate), Some(Ingest))), p)
  {
  }

  lemma NothingReported(returned: set<GraphStatus>, ckpt: Option<Checkpoint>)
    requires Reported(returned, None)
    ensures Reported(returned, ckpt)
  {
  }

  lemma {:induction false} RunKeepsInv(s: State, p: Params, asOf: int)
    requires Inv(s, p)
    ensures Inv(RunEntry(s, p, asOf), p)
  {
    hide ExecInv, UniqueKeys, RunInv, ClaimsInv, StatusOf, Evidences, Mine, InitialState, Proof;
    hide Handled, Reported, FourEyes, ReviewIs, PendingIs, Latest, Positioned, KindsDone, KindsThrough, TailGrounded;
    hide Chained, SnapshotMatches, Spells;
    if s.exec == None {
      NoPending(Mine(s.rows));
      if s.ckpt == None && ValidHash(p.contentHash) {
        var c := Checkpoint(InitialState(asOf, p.contentHash, p.duplicate), Some(Ingest));
        InitialCheckpoint(asOf, p.contentHash, p.duplicate);
        InitialInput(asOf, p);
        NothingReported(s.returned, Some(c));
        StartKeeps(c, None, []);
      } else if s.ckpt.Some? {
        var c := s.ckpt.value;
        PositionProof(c.w, c.next);
        ProofStatus(c.w.status);
        if Proof(c.w.status).Some? {
          RowsForward(Evidences(s.rows.ledger), s.rows.run.status, s.rows.exc, Mine(s.rows), c, c, s.returned,
                      s.returned + {c.w.status}, None, None);
        } else {
          StartKeeps(c, None, Evidences(s.rows.ledger));
        }
      }
    }
  }

  lemma ProofStatus(status: GraphStatus)
    ensures Proof(status).Some? <==> status in {GraphCompleted, GraphRejected, AwaitingReview}
  {
  }

  /** A valid signoff is the manager decision of the four-eyes pair. */
  lemma SignoffIsMine(rows: Rows, decisionId: nat)
    requires FourEyes(Mine(rows))
    ensures var d := Signoff(rows, decisionId);
            d.Some? ==> |Mine(rows)| == 2 && d.value == Mine(rows)[1] && d.value.id == decisionId
  {
    var d := Signoff(rows, decisionId);
    if d.Some? {
      ByIdFinds(rows.decisions, decisionId);
      ForMember(rows.decisions, rows.exc.value.id, d.value);
      hide Signoff, For, ById;
      var mine := Mine(rows);
      assert d.value in mine;
    }
  }

  lemma {:induction false} ResumeKeepsInv(s: State, p: Params, decisionId: nat)
    requires Inv(s, p)
    ensures Inv(ResumeEntry(s, decisionId), p)
  {
    hide CheckpointInv, ExecInv, UniqueKeys, RunInv, ClaimsInv, StatusOf, Evidences, Mine, Signoff;
    hide Handled, Reported, FourEyes, ReviewIs, Latest, KindsDone;
    SignoffIsMine(s.rows, decisionId);
    if ResumeEntry(s, decisionId) != s {
      var d := Signoff(s.rows, decisionId).value;
      StartKeeps(s.ckpt.value, Some(ReviewOf(d)), Evidences(s.rows.ledger));
    }
  }

  /** Evidence about to be committed outranks everything committed before it. */
  lemma {:induction false} NothingLater(c: Checkpoint, x: Exec, events: seq<Event>, later: Kind)
    requires CheckpointInv(c, events) && ExecInv(c, x, events) && |x.got| < |Kinds(x.node)|
    requires |KindsDone(c.w, c.next)| + |x.got| == |events|
    requires Rank(NextKind(x)) <= Rank(later)
    ensures Latest(events, later) == None
  {
    hide KindsThrough, KindsDone, Positioned, Chained, SnapshotMatches, TailGrounded, Kinds, Work, Latest, KindOf;
    var ks := KindsThrough(c.w, c.next);
    NextAligned(x, ks, |KindsDone(c.w, c.next)|, events);
    KindsOrdered(c.w, c.next);
    LatestAbsent(events, ks[..|events|], later);
  }

  /** Committing fresh evidence keeps the rows' invariant. */
  lemma RowsCommit(
    events: seq<Event>, e: Event, k: Kind, status: RunStatus, exc: Option<ExceptionRow>, after: Option<ExceptionRow>,
    mine: seq<Decision>, ckpt: Option<Checkpoint>, returned: set<GraphStatus>, pending: Option<ReviewDecision>)
    requires RowInv(events, status, exc, mine, ckpt, returned, pending)
    requires KindOf(e) == Some(k) && Latest(events, k) == None
    requires if k == KTriage then after.Some? && after.value.status == Open && status != Completed else after == exc
    requires k == KReview ==> pending.Some? && e == ReviewRecorded(pending.value)
    ensures RowInv(events + [e], status, after, mine, ckpt, returned, pending)
  {
    hide Latest, FourEyes, Reported, Recorded, KindOf;
    LatestAppend(events, e, KTriage);
    LatestAppend(events, e, KReview);
    LatestAppend(events, e, KArchive);
    LatestAppend(events, e, KReject);
  }

  /** The rows after a write: untouched, or one more event, with the exception a triage opens. */
  lemma WriteShape(x: Exec, rows: Rows, answer: Event, newId: nat)
    requires |x.got| < |Kinds(x.node)|
    requires rows.exc.Some? <==> Latest(rows.ledger, KTriage).Some?
    ensures var (after, t) := WriteEvidence(x, rows, answer, newId);
            && (t.Some? ==> Pending(t) == Pending(Some(x)))
            && (after == rows
                || (&& Grounded(NextKind(x), answer, Work(x)) && KindOf(answer) == Some(NextKind(x))
                    && (NextKind(x) == KTriage ==> Latest(rows.ledger, KTriage) == None
                                                   && after.exc == Some(ExceptionRow(newId, Open))
                                                   && For(rows.decisions, newId) == [])
                    && (NextKind(x) != KTriage ==> after.exc == rows.exc)
                    && (NextKind(x) == KReview ==> x.env.decision.Some? && answer == ReviewRecorded(x.env.decision.value))
                    && after == CommitEvent(rows.(exc := after.exc), answer)))
  {
    hide Work, Kinds, Latest;
    var k := NextKind(x);
    if Ready(k, Work(x), x.env) && Fresh(k, answer, Work(x), x.env) {
      FreshFacts(k, answer, Work(x), x.env);
      ReviewFresh(k, answer, Work(x), x.env);
      LatestKind(rows.ledger, KTriage);
      hide Ready, Fresh, Grounded, KindOf;
      if k == KTriage && rows.exc == None {
        Unused(rows.decisions, newId);
      }
    }
  }

  lemma ReviewFresh(k: Kind, e: Event, w: GraphState, env: Env)
    requires Ready(k, w, env) && Fresh(k, e, w, env)
    ensures k == KReview ==> env.decision.Some? && e == ReviewRecorded(env.decision.value)
  {
  }

  lemma {:induction false} Unused(decisions: seq<Decision>, id: nat)
    ensures (forall d <- decisions :: d.exceptionId != id) ==> For(decisions, id) == []
  {
    if decisions != [] {
      Unused(decisions[..|decisions| - 1], id);
    }
  }

  lemma DropPending(
    events: seq<Event>, status: RunStatus, exc: Option<ExceptionRow>, mine: seq<Decision>, ckpt: Option<Checkpoint>,
    returned: set<GraphStatus>, pending: Option<ReviewDecision>)
    requires RowInv(events, status, exc, mine, ckpt, returned, pending)
    ensures RowInv(events, status, exc, mine, ckpt, returned, None)
  {
    hide Handled, Reported, FourEyes, ReviewIs, Latest, Recorded;
  }

  lemma StatusAppend(ledger: seq<Event>, e: Event)
    ensures StatusOf(ledger + [e]) == if StatusMove(e).Some? then StatusMove(e).value else StatusOf(ledger)
  {
    assert (ledger + [e])[..|ledger|] == ledger;
  }

  /** Workflow evidence is neither a dead letter nor a redrive, and moves the invoice as its event says. */
  lemma TableCommit(s: State, p: Params, after: Option<ExceptionRow>, e: Event)
    requires TableInv(s, p) && KindOf(e).Some?
    ensures TableInv(s.(rows := CommitEvent(s.rows.(exc := after), e)), p)
  {
    CountAppend(s.rows.ledger, e, IsDeadLetter);
    CountAppend(s.rows.ledger, e, IsRedrive);
    LatestDeadLetterAppend(s.rows.ledger, e);
    StatusAppend(s.rows.ledger, e);
    hide UniqueKeys, ClaimsInv, StatusOf, Count, StatusMove, LatestDeadLetter;
  }

  lemma {:induction false} CommitRows(s: State, p: Params, answer: Event, newId: nat)
    requires Inv(s, p) && s.exec.Some? && s.exec.value.looked && |s.exec.value.got| < |Kinds(s.exec.value.node)|
    ensures RowsInv(Commit(s, answer, newId)) && TableInv(Commit(s, answer, newId), p)
  {
    hide CheckpointInv, ExecInv, UniqueKeys, RunInv, ClaimsInv, StatusOf, Evidences, Kinds, WriteEvidence, Work;
    hide Handled, Reported, FourEyes, ReviewIs, PendingIs, Latest, KindsDone, Recorded, CommitEvent, Grounded;
    hide KindOf, For;
    var c, x, events := s.ckpt.value, s.exec.value, Evidences(s.rows.ledger);
    var k, m := NextKind(x), |KindsDone(c.w, c.next)| + |x.got|;
    var (after, t) := WriteEvidence(x, s.rows, answer, newId);
    LatestEvidence(s.rows.ledger, KTriage);
    WriteShape(x, s.rows, answer, newId);
    if after != s.rows {
      NextEvidence(c, x, s.rows.ledger, events, m);
      LatestEvidence(s.rows.ledger, k);
      TriageNode(x.node, |x.got|);
      if k == KTriage {
        RankOfTriage();
        NothingLater(c, x, events, KArchive);
        NothingLater(c, x, events, KReject);
      }
      RowsCommit(events, answer, k, s.rows.run.status, s.rows.exc, after.exc, Mine(s.rows), s.ckpt, s.returned, x.env.decision);
      EvidencesAppend(s.rows.ledger, answer);
      TableCommit(s, p, after.exc, answer);
      CommitParts(s.rows.(exc := after.exc), answer);
      assert Mine(after) == Mine(s.rows);
      DropPending(events + [answer], s.rows.run.status, after.exc, Mine(s.rows), s.ckpt, s.returned, x.env.decision);
    } else {
      DropPending(events, s.rows.run.status, s.rows.exc, Mine(s.rows), s.ckpt, s.returned, x.env.decision);
    }
  }

  lemma RankOfTriage()
    ensures Rank(KTriage) <= Rank(KArchive) && Rank(KTriage) <= Rank(KReject)
  {
  }

  lemma CommitParts(rows: Rows, e: Event)
    ensures var after := CommitEvent(rows, e);
            after == rows.(ledger := rows.ledger + [e], invoice := after.invoice)
  {
  }

  lemma {:induction false} CommitKeepsInv(s: State, p: Params, answer: Event, newId: nat)
    requires Inv(s, p)
    ensures Inv(Commit(s, answer, newId), p)
  {
    hide CheckpointInv, ExecInv, RowsInv, TableInv, Evidences, Kinds, WriteEvidence;
    if s.exec.Some? && s.exec.value.looked && |s.exec.value.got| < |Kinds(s.exec.value.node)| {
      CommitKeeps(s.ckpt.value, s.exec.value, s.rows, answer, newId);
      CommitRows(s, p, answer, newId);
    }
  }

  // ---------------------------------------------------------------- steps of workers and people

  /** The run row and a ledger that grew by bookkeeping only. */
  predicate Bookkept(ledger: seq<Event>, after: seq<Event>) {
    after == ledger || (|after| > 0 && after[..|after| - 1] == ledger && KindOf(after[|after| - 1]) == None)
  }

  lemma BookkeepingKeeps(ledger: seq<Event>, after: seq<Event>)
    requires Bookkept(ledger, after)
    ensures Evidences(after) == Evidences(ledger) && StatusOf(after) == StatusOf(ledger)
  {
    if after != ledger {
      assert after == ledger + [after[|after| - 1]];
      EvidencesAppend(ledger, after[|after| - 1]);
      StatusAppend(ledger, after[|after| - 1]);
    }
  }

  /** Bookkeeping that is neither a dead letter nor a redrive. */
  predicate Quiet(ledger: seq<Event>, after: seq<Event>) {
    && |after| == |ledger| + 1 && after[..|ledger|] == ledger
    && var e := after[|ledger|]; e.DecisionProposed? || e.DecisionAccepted? || e.DuplicateRejected?
  }

  lemma QuietKeeps(run: RunRow, ledger: seq<Event>, after: seq<Event>, maxAttempts: nat)
    requires Quiet(ledger, after) && RunInv(run, ledger, maxAttempts)
    ensures RunInv(run, after, maxAttempts) && Bookkept(ledger, after)
  {
    var e := after[|ledger|];
    assert after == ledger + [e];
    CountAppend(ledger, e, IsDeadLetter);
    CountAppend(ledger, e, IsRedrive);
    LatestDeadLetterAppend(ledger, e);
  }

  lemma BeginKeepsInv(s: State, p: Params, now: int, continuation: bool)
    requires Inv(s, p)
    ensures Inv(Apply(s, p, BeginStep(now, continuation)), p)
  {
    hide GraphInv, UniqueKeys, StatusOf, Evidences, Count, LatestDeadLetter, Latest, Reported, FourEyes;
    hide Recorded, For;
  }

  /** A run that reported completion or rejection has no open exception left behind. */
  lemma {:induction false} EndedWithoutException(s: State, p: Params, status: GraphStatus)
    requires Inv(s, p) && s.rows.run.status == Running && status in s.returned
    requires status in {GraphCompleted, GraphRejected}
    ensures s.rows.exc == None
    ensures var events := Evidences(s.rows.ledger); Latest(events, KArchive).Some? || Latest(events, KReject).Some?
  {
    hide CheckpointInv, ExecInv, UniqueKeys, RunInv, ClaimsInv, StatusOf, Evidences, Latest, KindsDone, For, Handled;
    var events, c := Evidences(s.rows.ledger), s.ckpt.value;
    EndMeans(c, events);
    RecordedIsCommitted(c, events, Proof(status).value);
  }

  lemma {:induction false} SettleKeepsInv(s: State, p: Params, status: GraphStatus, now: int)
    requires Inv(s, p)
    ensures Inv(Apply(s, p, SettleStep(status, now)), p)
  {
    hide GraphInv, UniqueKeys, StatusOf, Evidences, Count, LatestDeadLetter, Latest, FourEyes, Recorded, For;
    hide ReviewIs, PendingIs;
    if status in s.returned && s.rows.run.status == Running {
      if status in {GraphCompleted, GraphRejected} {
        EndedWithoutException(s, p, status);
      }
    }
  }

  lemma FailShape(rows: Rows, a: RunAttempt, errorType: string, retryable: bool, maxAttempts: nat, now: int)
    requires RunInv(rows.run, rows.ledger, maxAttempts) && 1 <= a.attempt <= maxAttempts
    ensures var terminal := !retryable || a.attempt >= maxAttempts;
            var after := Worker.Fail(rows, a, errorType, retryable, terminal, now).0;
            && RunInv(after.run, after.ledger, maxAttempts) && Bookkept(rows.ledger, after.ledger)
            && after == rows.(run := after.run, ledger := after.ledger)
            && (after == rows || (rows.run.status == Running && after.run.status in {Running, Failed}))
  {
    hide Count, LatestDeadLetter, Worker.ValidErrorType;
    var e := DeadLettered(a.attempt, a.cycle, errorType, retryable);
    LatestDeadLetterAppend(rows.ledger, e);
    CountAppend(rows.ledger, e, IsDeadLetter);
    CountAppend(rows.ledger, e, IsRedrive);
  }

  lemma RedriveShape(rows: Rows, key: string, actor: string, reason: string, maxAttempts: nat)
    requires RunInv(rows.run, rows.ledger, maxAttempts) && maxAttempts >= 1
    ensures var after := Worker.Redrive(rows, key, actor, reason).0;
            && RunInv(after.run, after.ledger, maxAttempts) && Bookkept(rows.ledger, after.ledger)
            && after == rows.(run := after.run, ledger := after.ledger)
            && (after == rows || (rows.run.status == Failed && after.run.status == Queued))
  {
    hide Worker.ValidKey, Worker.ValidActor, Worker.ValidReason, Worker.PriorRedrive, Count, LatestDeadLetter;
    var cycle := Worker.Stored(rows.run).cycle;
    var e := Redriven(key, actor, reason, cycle, cycle + 1);
    CountAppend(rows.ledger, e, IsDeadLetter);
    CountAppend(rows.ledger, e, IsRedrive);
  }

  /** A run row that only moves between queued, running and failed. */
  lemma {:induction false} ActiveRunKeeps(s: State, p: Params, after: Rows)
    requires Inv(s, p) && s.rows.run.status in {Queued, Running, Failed} && after.run.status in {Queued, Running, Failed}
    requires after == s.rows.(run := after.run, ledger := after.ledger) && Bookkept(s.rows.ledger, after.ledger)
    requires RunInv(after.run, after.ledger, p.retry.maxAttempts)
    ensures Inv(s.(rows := after), p)
  {
    hide GraphInv, UniqueKeys, StatusOf, Evidences, Count, Latest, FourEyes, Recorded, For, ReviewIs, PendingIs;
    hide Bookkept, RunInv, ClaimsInv, Reported;
    BookkeepingKeeps(s.rows.ledger, after.ledger);
  }

  lemma {:induction false} FailKeepsInv(s: State, p: Params, a: RunAttempt, errorType: string, retryable: bool, now: int)
    requires Inv(s, p)
    ensures Inv(Apply(s, p, FailStep(a, errorType, retryable, now)), p)
  {
    var t := Apply(s, p, FailStep(a, errorType, retryable, now));
    if a in s.claims {
      FailShape(s.rows, a, errorType, retryable, p.retry.maxAttempts, now);
      hide GraphOk, RowsInv, Worker.Fail, RunInv, Bookkept, UniqueKeys;
      if t != s {
        ActiveRunKeeps(s, p, t.rows);
      }
    }
  }

  lemma {:induction false} RedriveKeepsInv(s: State, p: Params, key: string, actor: string, reason: string)
    requires Inv(s, p) && p.retry.maxAttempts >= 1
    ensures Inv(Apply(s, p, RedriveStep(key, actor, reason)), p)
  {
    hide GraphOk, RowsInv, Worker.Redrive, RunInv, Bookkept, UniqueKeys;
    var t := Apply(s, p, RedriveStep(key, actor, reason));
    RedriveShape(s.rows, key, actor, reason, p.retry.maxAttempts);
    if t != s {
      ActiveRunKeeps(s, p, t.rows);
    }
  }

  /** What a submission does to the exception's decisions. */
  lemma SubmitShape(rows: Rows, exceptionId: nat, request: DecisionRequest, role: Actor, key: string, newId: nat)
    requires FourEyes(Mine(rows)) && UniqueKeys(rows.decisions)
    ensures var after := Submit(rows, exceptionId, request, role, key, newId).0;
            && FourEyes(Mine(after)) && UniqueKeys(after.decisions)
            && (after == rows
                || (&& rows.run.status == Paused && rows.exc.Some? && |Mine(after)| == |Mine(rows)| + 1 <= 2
                    && after == rows.(decisions := after.decisions, exc := after.exc, ledger := after.ledger)
                    && after.exc == Some(rows.exc.value.(status := InReview))
                    && Quiet(rows.ledger, after.ledger)))
  {
    var after := Submit(rows, exceptionId, request, role, key, newId).0;
    SubmitKeepsUnique(rows, exceptionId, request, role, key, newId);
    if after != rows {
      SubmitKeepsFourEyes(rows, exceptionId, request, role, key, newId);
      ForAppend(rows.decisions, after.decisions[|rows.decisions|], exceptionId);
      hide FourEyes, UniqueKeys, For, ByKey, ById;
    }
  }

  lemma {:induction false} SubmitKeepsInv(
    s: State, p: Params, exceptionId: nat, request: DecisionRequest, role: Actor, key: string, newId: nat)
    requires Inv(s, p)
    ensures Inv(Apply(s, p, SubmitStep(exceptionId, request, role, key, newId)), p)
  {
    hide GraphInv, UniqueKeys, StatusOf, Evidences, Count, Latest, FourEyes, Recorded, For, Submit, Reported;
    hide Bookkept, KindOf;
    hide ClaimsInv, RunInv, Quiet;
    SubmitShape(s.rows, exceptionId, request, role, key, newId);
    var after := Submit(s.rows, exceptionId, request, role, key, newId).0;
    if after != s.rows {
      QuietKeeps(s.rows.run, s.rows.ledger, after.ledger, p.retry.maxAttempts);
      BookkeepingKeeps(s.rows.ledger, after.ledger);
      GrownMine(Evidences(after.ledger), Mine(s.rows), Mine(after), Pending(s.exec));
    }
  }

  /** Before the second decision there is no review, so none can contradict it. */
  lemma GrownMine(events: seq<Event>, mine: seq<Decision>, after: seq<Decision>, pending: Option<ReviewDecision>)
    requires |mine| < 2 && ReviewIs(Latest(events, KReview), mine) && PendingIs(pending, mine)
    ensures ReviewIs(Latest(events, KReview), after) && PendingIs(pending, after)
  {
  }

  lemma ForeignShape(rows: Rows, d: Decision)
    requires UniqueKeys(rows.decisions)
    requires ByKey(rows.decisions, d.key) == None && ById(rows.decisions, d.id) == None
    requires rows.exc.Some? ==> rows.exc.value.id != d.exceptionId
    ensures var after := rows.(decisions := rows.decisions + [d]);
            UniqueKeys(after.decisions) && Mine(after) == Mine(rows)
  {
    ByKeyFinds(rows.decisions, d.key);
    ByIdFinds(rows.decisions, d.id);
    if rows.exc.Some? {
      ForAppend(rows.decisions, d, rows.exc.value.id);
    }
    hide ByKey, ById, For;
  }

  lemma ForeignKeepsInv(s: State, p: Params, d: Decision)
    requires Inv(s, p)
    ensures Inv(Apply(s, p, ForeignDecisionStep(d)), p)
  {
    hide GraphInv, StatusOf, Evidences, RowInv, ByKey, ById, Mine, RunInv, ClaimsInv, UniqueKeys;
    if Apply(s, p, ForeignDecisionStep(d)) != s {
      ForeignShape(s.rows, d);
    }
  }

  lemma {:induction false} DuplicateKeepsInv(s: State, p: Params)
    requires Inv(s, p)
    ensures Inv(Apply(s, p, DuplicateUploadStep), p)
  {
    hide GraphInv, StatusOf, Evidences, RowInv, UniqueKeys, For, RunInv, ClaimsInv, Bookkept;
    var after := s.rows.ledger + [DuplicateRejected];
    assert after[..|s.rows.ledger|] == s.rows.ledger;
    QuietKeeps(s.rows.run, s.rows.ledger, after, p.retry.maxAttempts);
    BookkeepingKeeps(s.rows.ledger, after);
    assert Mine(s.rows.(ledger := after)) == Mine(s.rows);
  }

  lemma {:induction false} SettleReviewKeepsInv(s: State, p: Params, decisionId: nat, now: int)
    requires Inv(s, p)
    ensures Inv(Apply(s, p, SettleReviewStep(decisionId, now)), p)
  {
    hide GraphInv, UniqueKeys, StatusOf, Evidences, Count, LatestDeadLetter, Latest, FourEyes, Recorded, For;
    hide Reported, Signoff;
    SignoffIsMine(s.rows, decisionId);
    LatestEvidence(s.rows.ledger, KReview);
    LatestEvidence(s.rows.ledger, KArchive);
  }

  // ---------------------------------------------------------------- whole runs

  lemma InitInv(p: Params)
    requires p.retry.maxAttempts >= 1
    ensures Inv(Init(), p)
  {
    assert Evidences([IngestAccepted]) == [];
    assert StatusOf([IngestAccepted]) == InQueue;
  }

  lemma {:induction false} ApplyKeepsInv(s: State, p: Params, step: Step)
    requires Inv(s, p) && p.retry.maxAttempts >= 1
    ensures Inv(Apply(s, p, step), p)
  {
    hide Inv, Look, Commit, RunEntry, ResumeEntry, WriteCheckpoint, SettleReview, Submit;
    hide Worker.Begin, Worker.Settle, Worker.Fail, Worker.Redrive;
    match step
    case BeginStep(now, continuation) => BeginKeepsInv(s, p, now, continuation);
    case SettleStep(status, now) => SettleKeepsInv(s, p, status, now);
    case FailStep(a, errorType, retryable, now) => FailKeepsInv(s, p, a, errorType, retryable, now);
    case RedriveStep(key, actor, reason) => RedriveKeepsInv(s, p, key, actor, reason);
    case SubmitStep(exceptionId, request, role, key, newId) =>
      SubmitKeepsInv(s, p, exceptionId, request, role, key, newId);
    case ForeignDecisionStep(d) => ForeignKeepsInv(s, p, d);
    case DuplicateUploadStep => DuplicateKeepsInv(s, p);
    case RunStep(asOf) => RunKeepsInv(s, p, asOf);
    case ResumeStep(decisionId) => ResumeKeepsInv(s, p, decisionId);
    case LookStep(snapshot, stalePo) => LookKeepsInv(s, p, snapshot, stalePo);
    case CommitStep(answer, newId) => CommitKeepsInv(s, p, answer, newId);
    case CheckpointStep => CheckpointKeepsInv(s, p);
    case CrashStep => CrashKeepsInv(s, p);
    case SettleReviewStep(decisionId, now) => SettleReviewKeepsInv(s, p, decisionId, now);
  }

  /** Every state of every run satisfies the invariant, whatever crashes and whoever interleaves. */
  lemma {:induction false} RunsKeepInv(s: State, p: Params, steps: seq<Step>)
    requires Inv(s, p) && p.retry.maxAttempts >= 1
    ensures Inv(Run(s, p, steps), p)
  {
    hide Inv, Apply;
    if steps != [] {
      RunsKeepInv(s, p, steps[..|steps| - 1]);
      ApplyKeepsInv(Run(s, p, steps[..|steps| - 1]), p, steps[|steps| - 1]);
    }
  }
}
