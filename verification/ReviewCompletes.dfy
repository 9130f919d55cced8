/** From every crash point after a manager decision was accepted, processing it once finishes the run. */
module ReviewCompletes {
  import opened Domain
  import opened Graph
  import opened Services
  import opened Decisions
  import opened Protocol
  import opened GraphInvariant
  import opened Invariant
  import opened Safety
  import opened Replay
  import opened Review

  // ---------------------------------------------------------------- a resumed node as three steps

  /** Look, commit, checkpoint: the protocol's steps for one resumed node. */
  function NodeSteps(c: Checkpoint, review: ReviewDecision): seq<Step>
    requires Reviewing(c.next)
  {
    [LookStep(None, false), CommitStep(Transition(c, review), 0), CheckpointStep]
  }

  predicate ReadyToResume(s: State, p: Params, c: Checkpoint, review: ReviewDecision) {
    && Inv(s, p) && s.ckpt == Some(c) && Reviewing(c.next) && s.exec == Some(Starting(c, Some(review)))
  }

  lemma OneKind(next: Option<Node>)
    requires Reviewing(next)
    ensures |Kinds(next.value)| == 1
    ensures Kinds(next.value)[0] == if next == Some(HumanReview) then KReview else KArchive
  {
  }

  /** What a resumed node finds committed is nothing or exactly its own transition. */
  lemma {:induction false} CommittedTransition(s: State, p: Params, c: Checkpoint, review: ReviewDecision)
    requires ReadyToResume(s, p, c, review)
    ensures Latest(s.rows.ledger, Kinds(c.next.value)[0]) in {None, Some(Transition(c, review))}
  {
    hide ExecInv, RowInv, TableInv, Evidences, Latest, CheckpointInv;
    OneKind(c.next);
    if c.next == Some(HumanReview) {
      if Latest(s.rows.ledger, KReview).Some? {
        ReviewAgrees(s, s.exec.value);
      }
    } else {
      var x, events := s.exec.value, Evidences(s.rows.ledger);
      NextEvidence(c, x, s.rows.ledger, events, |KindsDone(c.w, c.next)| + |x.got|);
      assert Work(x) == c.w;
    }
  }

  /** Fresh transitions pass every check of their service. */
  lemma TransitionFresh(c: Checkpoint, review: ReviewDecision)
    requires Reviewing(c.next)
    ensures var k, env := Kinds(c.next.value)[0], Env(None, false, Some(review));
            Ready(k, c.w, env) && Fresh(k, Transition(c, review), c.w, env) && Accepts(k, Transition(c, review), c.w, env)
  {
    OneKind(c.next);
  }

  /** Looking and then committing is the replay-safe transition of the service. */
  lemma {:induction false} LookCommitIsAppendOnce(s: State, p: Params, c: Checkpoint, review: ReviewDecision)
    requires ReadyToResume(s, p, c, review)
    ensures var e := Transition(c, review);
            var (rows, r) := AppendOnce(s.rows, Kinds(c.next.value)[0], e);
            && r.Ok?
            && Commit(Look(s, None, false), e, 0)
               == s.(rows := rows, exec := Some(Starting(c, Some(review)).(got := [e])))
  {
    hide Inv, Latest, CommitEvent, Ready, Fresh, Accepts, KindOf, Transition, EventOf, PrepareTriage;
    OneKind(c.next);
    CommittedTransition(s, p, c, review);
    TransitionFresh(c, review);
    assert [] + [Transition(c, review)] == [Transition(c, review)];
    assert forall env :: AbsorbAll(c.w, [], env) == c.w;
  }

  /** The checkpoint a resumed node writes. */
  function NextCheckpoint(c: Checkpoint, review: ReviewDecision): Checkpoint
    requires Reviewing(c.next)
  {
    var w := Finish(c.next.value, if c.next == Some(HumanReview) then c.w.(review := Some(review)) else c.w);
    Checkpoint(w, Successor(c.next.value, w))
  }

  lemma NextCheckpointFacts(c: Checkpoint, review: ReviewDecision)
    requires Reviewing(c.next)
    ensures var d := NextCheckpoint(c, review);
            if c.next == Some(HumanReview) then d.next == Some(Archive) && d.w.review == Some(review)
            else d.next == None && d.w.status == GraphCompleted && d.w.review == c.w.review
  {
  }

  lemma AbsorbOne(w: GraphState, e: Event, env: Env)
    ensures AbsorbAll(w, [e], env) == Absorb(e, w, env)
  {
    assert [e][..0] == [];
    assert AbsorbAll(w, [], env) == w;
  }

  lemma TransitionWork(c: Checkpoint, review: ReviewDecision)
    requires Reviewing(c.next)
    ensures var x := Starting(c, Some(review)).(got := [Transition(c, review)]);
            Checkpoint(Finish(x.node, Work(x)), Successor(x.node, Finish(x.node, Work(x)))) == NextCheckpoint(c, review)
  {
    AbsorbOne(c.w, Transition(c, review), Env(None, false, Some(review)));
    hide Finish, Successor, AbsorbAll;
  }

  /** The protocol's state after a resumed node: rows and checkpoint as the worker leaves them. */
  function AfterNode(s: State, c: Checkpoint, review: ReviewDecision): State
    requires Reviewing(c.next)
  {
    var next, rows := NextCheckpoint(c, review), AppendOnce(s.rows, Kinds(c.next.value)[0], Transition(c, review)).0;
    if c.next == Some(HumanReview) then s.(rows := rows, ckpt := Some(next), exec := Some(Starting(next, Some(review))))
    else s.(rows := rows, ckpt := Some(next), exec := None, returned := s.returned + {GraphCompleted})
  }

  lemma {:induction false} NodeRuns(s: State, p: Params, c: Checkpoint, review: ReviewDecision)
    requires ReadyToResume(s, p, c, review) && p.retry.maxAttempts >= 1
    ensures Run(s, p, NodeSteps(c, review)) == AfterNode(s, c, review)
    ensures Inv(AfterNode(s, c, review), p)
    ensures var (next, rows, r) := ResumeNode(c, s.rows, review);
            r.Ok? && next == NextCheckpoint(c, review) && rows == AfterNode(s, c, review).rows
  {
    hide Inv, Look, Commit, AppendOnce, Transition, Finish, Successor, Work, ValidProgress, EventOf;
    var looked := Look(s, None, false);
    var committed := Commit(looked, Transition(c, review), 0);
    LookCommitIsAppendOnce(s, p, c, review);
    ThreeSteps(s, p, c, review);
    ApplyKeepsInv(s, p, LookStep(None, false));
    ApplyKeepsInv(looked, p, CommitStep(Transition(c, review), 0));
    ApplyKeepsInv(committed, p, CheckpointStep);
    OneKind(c.next);
    TransitionWork(c, review);
    NextCheckpointFacts(c, review);
    AcceptedByValidator(committed, p);
  }

  lemma {:induction false} AcceptedByValidator(s: State, p: Params)
    requires Inv(s, p) && s.exec.Some? && |s.exec.value.got| == |Kinds(s.exec.value.node)|
    ensures ValidProgress(Finish(s.exec.value.node, Work(s.exec.value)))
  {
    hide CheckpointInv, ExecInv, RowsInv, TableInv, Evidences, Finish, Work, ValidProgress, Kinds;
    CheckpointKeeps(s.ckpt.value, s.exec.value, Evidences(s.rows.ledger));
  }

  lemma ThreeSteps(s: State, p: Params, c: Checkpoint, review: ReviewDecision)
    requires Reviewing(c.next)
    ensures Run(s, p, NodeSteps(c, review))
         == WriteCheckpoint(Commit(Look(s, None, false), Transition(c, review), 0))
  {
    hide Look, Commit, WriteCheckpoint, Transition;
    var steps := NodeSteps(c, review);
    RunTake(s, p, steps, 0);
    RunTake(s, p, steps, 1);
    RunTake(s, p, steps, 2);
    assert steps[..3] == steps;
  }

  // ---------------------------------------------------------------- the whole resume

  function ResumeSteps(c: Checkpoint, review: ReviewDecision): seq<Step>
    decreases StepsLeft(c.next)
  {
    if !Reviewing(c.next) then []
    else
      NextCheckpointFacts(c, review);
      NodeSteps(c, review) + ResumeSteps(NextCheckpoint(c, review), review)
  }

  /** The worker's resume is that run of the protocol, and it reaches the completed graph. */
  lemma {:induction false} ResumeRuns(s: State, p: Params, c: Checkpoint, review: ReviewDecision)
    requires ReadyToResume(s, p, c, review) && p.retry.maxAttempts >= 1
    requires c.next == Some(Archive) ==> c.w.review == Some(review)
    ensures var (next, rows, r) := ResumeNodes(c, s.rows, review);
            && r.Ok? && next.next == None && next.w.status == GraphCompleted && next.w.review == Some(review)
            && Run(s, p, ResumeSteps(c, review))
               == s.(rows := rows, ckpt := Some(next), exec := None, returned := s.returned + {GraphCompleted})
            && rows == s.rows.(invoice := rows.invoice, ledger := rows.ledger)
    decreases StepsLeft(c.next)
  {
    hide Inv, Apply, ResumeNode, NextCheckpoint, NodeSteps, AppendOnce, Transition;
    var t := AfterNode(s, c, review);
    var next := NextCheckpoint(c, review);
    NodeRuns(s, p, c, review);
    NextCheckpointFacts(c, review);
    AppendOnlyInvoice(s.rows, Kinds(c.next.value)[0], Transition(c, review));
    if c.next == Some(HumanReview) {
      ResumeRuns(t, p, next, review);
      RunConcat(s, p, NodeSteps(c, review), ResumeSteps(next, review));
    } else {
      assert NodeSteps(c, review) + [] == NodeSteps(c, review);
    }
  }

  lemma AppendOnlyInvoice(rows: Rows, k: Kind, e: Event)
    ensures var after := AppendOnce(rows, k, e).0; after == rows.(invoice := after.invoice, ledger := after.ledger)
  {
  }

  // ---------------------------------------------------------------- processing an accepted decision

  lemma TriagedPosition(w: GraphState, next: Option<Node>)
    requires Positioned(w, next) && KTriage in KindsDone(w, next)
    ensures (next == Some(HumanReview) && w.status == AwaitingReview)
            || (next == Some(Archive) && w.status == GraphRunning && KReview in KindsDone(w, next))
            || (next == None && w.status == GraphCompleted && KReview in KindsDone(w, next))
  {
  }

  lemma ReviewedBy(c: Checkpoint, events: seq<Event>, mine: seq<Decision>)
    requires CheckpointInv(c, events) && KReview in KindsDone(c.w, c.next) && ReviewIs(Latest(events, KReview), mine)
    ensures |mine| == 2 && c.w.review == Some(ReviewOf(mine[1]))
  {
    hide KindsDone, CheckpointInv, Latest, Grounded;
    DoneBacked(c, events, KReview);
  }

  /** While the run is paused, the stored checkpoint waits for exactly the accepted decision. */
  lemma {:induction false} PausedPlan(s: State, p: Params, d: Decision)
    requires Inv(s, p) && s.rows.run.status == Paused && |Mine(s.rows)| == 2 && d == Mine(s.rows)[1]
    ensures s.ckpt.Some?
    ensures var c := s.ckpt.value;
            if c.next == None then ResumePlanFor(c, ReviewOf(d)) == AlreadyDone && c.w.status == GraphCompleted
                                   && c.w.review == Some(ReviewOf(d))
            else Reviewing(c.next) && ResumePlanFor(c, ReviewOf(d)) == Continue(Starting(c, Some(ReviewOf(d))))
                 && (c.next == Some(Archive) ==> c.w.review == Some(ReviewOf(d)))
  {
    hide ExecInv, TableInv, Evidences, Latest, KindsDone, KindsThrough, Chained, SnapshotMatches;
    hide TailGrounded, Spells;
    hide Handled, Reported, FourEyes, Mine;
    var c, events := s.ckpt.value, Evidences(s.rows.ledger);
    PositionOf(c, events);
    TriagedPosition(c.w, c.next);
    if KReview in KindsDone(c.w, c.next) {
      ReviewedBy(c, events, Mine(s.rows));
    }
    hide Positioned;
  }

  lemma PositionOf(c: Checkpoint, events: seq<Event>)
    requires CheckpointInv(c, events)
    ensures Positioned(c.w, c.next)
  {
  }

  /** The steps of the protocol one uninterrupted `process` takes. */
  function ProcessSteps(s: State, decisionId: nat, now: int): seq<Step> {
    var d := Signoff(s.rows, decisionId);
    if s.rows.run.status == Paused && d.Some? && s.ckpt.Some?
       && ResumePlanFor(s.ckpt.value, ReviewOf(d.value)).Continue?
    then [ResumeStep(decisionId)] + ResumeSteps(s.ckpt.value, ReviewOf(d.value)) + [SettleReviewStep(decisionId, now)]
    else [SettleReviewStep(decisionId, now)]
  }

  /** What a processed decision leaves behind. */
  predicate DecisionApplied(rows: Rows, d: Decision) {
    && rows.run.status == Completed
    && rows.exc.Some? && Closes(rows.exc.value.status, d.action)
    && (rows.invoice == Approved <==> d.action == Approve) && (rows.invoice == Returned <==> d.action == Return)
    && (rows.invoice == NeedsReview <==> d.action == Escalate)
    && Latest(rows.ledger, KReview) == Some(ReviewRecorded(ReviewOf(d))) && Occurrences(rows.ledger, KReview) == 1
    && Latest(rows.ledger, KArchive).Some? && Occurrences(rows.ledger, KArchive) == 1
  }

  /** Once the graph is finished and nobody runs it, settling completes the run. */
  lemma {:induction false} SettlesCompleted(s: State, p: Params, decisionId: nat, now: int, d: Decision)
    requires Inv(s, p) && Signoff(s.rows, decisionId) == Some(d)
    requires s.rows.run.status == Completed || (s.rows.run.status == Paused && Recorded(s.ckpt, KArchive))
    ensures var (rows, r) := SettleReview(s.rows, decisionId, now);
            && rows.run.status == Completed && rows.exc.Some?
            && r == Ok(rows.exc.value.status) && Closes(rows.exc.value.status, d.action)
            && rows == s.rows.(run := rows.run, exc := rows.exc)
            && Latest(rows.ledger, KReview) == Some(ReviewRecorded(ReviewOf(d))) && Latest(rows.ledger, KArchive).Some?
            && (s.rows.run.status == Completed ==> rows == s.rows)
  {
    hide ExecInv, TableInv, Evidences, Latest, KindsDone, Signoff, Reported, For, CheckpointInv;
    SignoffIsMine(s.rows, decisionId);
    LatestEvidence(s.rows.ledger, KReview);
    LatestEvidence(s.rows.ledger, KArchive);
    LatestEvidence(s.rows.ledger, KTriage);
    if Recorded(s.ckpt, KArchive) {
      EndMeans(s.ckpt.value, Evidences(s.rows.ledger));
      RecordedIsCommitted(s.ckpt.value, Evidences(s.rows.ledger), KArchive);
    }
  }

  lemma SameId(decisions: seq<Decision>, d: Decision)
    requires UniqueKeys(decisions) && d in decisions
    ensures ById(decisions, d.id) == Some(d)
  {
    ByIdFinds(decisions, d.id);
    var e := ById(decisions, d.id).value;
    var i :| 0 <= i < |decisions| && decisions[i] == d;
    var j :| 0 <= j < |decisions| && decisions[j] == e;
    assert i == j;
  }

  /** Every accepted manager decision passes the worker's signoff check. */
  lemma AcceptedIsSigned(rows: Rows)
    requires UniqueKeys(rows.decisions) && FourEyes(Mine(rows)) && |Mine(rows)| == 2
    ensures Signoff(rows, Mine(rows)[1].id) == Some(Mine(rows)[1])
  {
    var mine := Mine(rows);
    ForMember(rows.decisions, rows.exc.value.id, mine[0]);
    ForMember(rows.decisions, rows.exc.value.id, mine[1]);
    SameId(rows.decisions, mine[0]);
    SameId(rows.decisions, mine[1]);
    hide UniqueKeys, For, ById;
  }

  lemma SameSignoff(rows: Rows, after: Rows, decisionId: nat)
    requires rows.exc.Some? && after.exc.Some? && after.exc.value.id == rows.exc.value.id
    requires after.decisions == rows.decisions
    ensures Signoff(after, decisionId) == Signoff(rows, decisionId)
  {
  }

  /** A paused run resumes to a finished graph: worker and protocol agree on rows and checkpoint. */
  lemma {:induction false} PausedResumes(s: State, p: Params, decisionId: nat, d: Decision) returns (t: State)
    requires Inv(s, p) && p.retry.maxAttempts >= 1 && s.exec == None
    requires s.rows.run.status == Paused && Signoff(s.rows, decisionId) == Some(d)
    ensures Inv(t, p) && t.exec == None && t.rows == s.rows.(invoice := t.rows.invoice, ledger := t.rows.ledger)
    ensures Resume(s.ckpt, s.rows, ReviewOf(d)) == (t.ckpt, t.rows, Ok(()))
    ensures t.ckpt.Some? && t.ckpt.value.next == None
    ensures t.ckpt.value.w.status == GraphCompleted && t.ckpt.value.w.review == Some(ReviewOf(d))
    ensures s.ckpt.Some?
    ensures var plan := ResumePlanFor(s.ckpt.value, ReviewOf(d));
            if plan.Continue? then t == Run(s, p, [ResumeStep(decisionId)] + ResumeSteps(s.ckpt.value, ReviewOf(d)))
            else t == s
  {
    hide Inv, Apply, Signoff, ResumeNodes, ResumeSteps, NodeSteps, ResumePlanFor, FourEyes;
    SignoffOf(s, p, decisionId);
    PausedPlan(s, p, d);
    var c, review := s.ckpt.value, ReviewOf(d);
    if c.next == None {
      t := s;
    } else {
      var resumed := Apply(s, p, ResumeStep(decisionId));
      ResumesTo(s, p, decisionId, d);
      ApplyKeepsInv(s, p, ResumeStep(decisionId));
      ResumeRuns(resumed, p, c, review);
      t := Run(resumed, p, ResumeSteps(c, review));
      RunsKeepInv(resumed, p, ResumeSteps(c, review));
      RunOne(s, p, ResumeStep(decisionId));
      RunConcat(s, p, [ResumeStep(decisionId)], ResumeSteps(c, review));
      assert ResumeNodes(c, s.rows, review).2 == Ok(()) by { UnitOk(ResumeNodes(c, s.rows, review).2); }
    }
  }

  lemma UnitOk<E>(r: Result<(), E>)
    requires r.Ok?
    ensures r == Ok(())
  {
    match r case Ok(u) => assert u == ();
  }

  lemma {:induction false} SignoffOf(s: State, p: Params, decisionId: nat)
    requires Inv(s, p) && Signoff(s.rows, decisionId).Some?
    ensures |Mine(s.rows)| == 2 && Signoff(s.rows, decisionId).value == Mine(s.rows)[1]
  {
    hide GraphOk, TableInv, Signoff, Mine, Handled, Latest, Reported;
    SignoffIsMine(s.rows, decisionId);
  }

  lemma ResumesTo(s: State, p: Params, decisionId: nat, d: Decision)
    requires s.exec == None && s.ckpt.Some? && Signoff(s.rows, decisionId) == Some(d) && s.rows.run.status == Paused
    requires s.ckpt.value.next.Some?
    requires ResumePlanFor(s.ckpt.value, ReviewOf(d)) == Continue(Starting(s.ckpt.value, Some(ReviewOf(d))))
    ensures Apply(s, p, ResumeStep(decisionId)) == s.(exec := Some(Starting(s.ckpt.value, Some(ReviewOf(d)))))
  {
    hide Signoff, ResumePlanFor;
  }

  lemma EndArchived(c: Checkpoint, events: seq<Event>)
    requires CheckpointInv(c, events) && c.next == None && c.w.status == GraphCompleted
    ensures Recorded(Some(c), KArchive)
  {
    PositionOf(c, events);
    hide CheckpointInv;
  }

  lemma EvidenceApplied(s: State, p: Params, d: Decision)
    requires Inv(s, p) && Latest(s.rows.ledger, KReview) == Some(ReviewRecorded(ReviewOf(d)))
    requires Latest(s.rows.ledger, KArchive).Some?
    ensures (s.rows.invoice == Approved <==> d.action == Approve) && (s.rows.invoice == Returned <==> d.action == Return)
    ensures s.rows.invoice == NeedsReview <==> d.action == Escalate
    ensures Occurrences(s.rows.ledger, KReview) == 1 && Occurrences(s.rows.ledger, KArchive) == 1
  {
    hide GraphOk, RowsInv, RunInv, ClaimsInv, UniqueKeys, StatusOf, Latest, Occurrences, Evidences;
    OccurrencesExact(s, KReview);
    OccurrencesExact(s, KArchive);
    StatusOfEvidence(s.rows.ledger);
    EvidenceExclusive(s);
    LatestEvidence(s.rows.ledger, KReview);
  }

  /** Settling a finished graph, once and again. */
  lemma {:induction false} SettledTwice(s: State, p: Params, decisionId: nat, now: int, later: int, d: Decision) returns (t: State)
    requires Inv(s, p) && p.retry.maxAttempts >= 1 && Signoff(s.rows, decisionId) == Some(d)
    requires s.rows.run.status == Completed || (s.rows.run.status == Paused && Recorded(s.ckpt, KArchive))
    ensures t == Apply(s, p, SettleReviewStep(decisionId, now)) && Inv(t, p) && t == s.(rows := t.rows)
    ensures DecisionApplied(t.rows, d) && Signoff(t.rows, decisionId) == Some(d)
    ensures Settled(s.ckpt, s.rows, decisionId, now) == (t.ckpt, t.rows, Ok(t.rows.exc.value.status))
    ensures Settled(t.ckpt, t.rows, decisionId, later) == (t.ckpt, t.rows, Ok(t.rows.exc.value.status))
  {
    hide Inv, Signoff, SettleReview, Latest, Occurrences, Closes, Recorded;
    SettlesCompleted(s, p, decisionId, now, d);
    SettledExc(s.rows, decisionId, now);
    t := s.(rows := SettleReview(s.rows, decisionId, now).0);
    ApplyKeepsInv(s, p, SettleReviewStep(decisionId, now));
    SameSignoff(s.rows, t.rows, decisionId);
    SettlesCompleted(t, p, decisionId, later, d);
    EvidenceApplied(t, p, d);
  }

  lemma SettledExc(rows: Rows, decisionId: nat, now: int)
    ensures var after := SettleReview(rows, decisionId, now).0;
            && after.exc.Some? == rows.exc.Some? && (rows.exc.Some? ==> after.exc.value.id == rows.exc.value.id)
            && (Signoff(rows, decisionId).Some? ==> rows.exc.Some?)
  {
    hide Latest, ById;
  }

  /** One uninterrupted `process` of the accepted decision is a run of the protocol that applies the
  decision; processing it again changes nothing and answers the same. */
  predicate Finishes(s: State, p: Params, now: int, later: int)
    requires |Mine(s.rows)| == 2
  {
    var d := Mine(s.rows)[1];
    var (ckpt, rows, r) := ProcessDecision(s.ckpt, s.rows, d.id, now);
    var t := Run(s, p, ProcessSteps(s, d.id, now));
    && t.rows == rows && t.ckpt == ckpt && t.exec == None
    && DecisionApplied(rows, d) && r == Ok(rows.exc.value.status)
    && ProcessDecision(ckpt, rows, d.id, later) == (ckpt, rows, r)
  }

  /** From every crash point after its decision was accepted, that is from every reachable state whose
  executor ended or crashed, one uninterrupted `process` ends with the run COMPLETED, the exception
  RESOLVED or ESCALATED as the action says, the invoice in the action's status, and review and archive
  recorded once. */
  lemma {:induction false} ProcessFinishes(s: State, p: Params, steps: seq<Step>, now: int, later: int)
    requires p.retry.maxAttempts >= 1
    requires s == Run(Init(), p, steps) && s.exec == None && |Mine(s.rows)| == 2
    ensures Finishes(s, p, now, later)
  {
    hide Run, Inv, Mine, ProcessDecision, ProcessSteps, DecisionApplied;
    InitInv(p);
    RunsKeepInv(Init(), p, steps);
    AcceptedFinishes(s, p, now, later);
  }

  lemma DecidedStatus(s: State, p: Params)
    requires Inv(s, p) && |Mine(s.rows)| == 2
    ensures s.rows.run.status in {Paused, Completed} && Signoff(s.rows, Mine(s.rows)[1].id) == Some(Mine(s.rows)[1])
  {
    hide GraphOk, RunInv, ClaimsInv, UniqueKeys, StatusOf, Latest, Mine, Handled, Reported, FourEyes, Signoff;
    AcceptedIsSigned(s.rows);
  }

  lemma {:induction false} AcceptedFinishes(s: State, p: Params, now: int, later: int)
    requires Inv(s, p) && p.retry.maxAttempts >= 1 && s.exec == None && |Mine(s.rows)| == 2
    ensures Finishes(s, p, now, later)
  {
    hide Inv, Apply, Mine, Signoff, Settled, Resume, ResumePlanFor, DecisionApplied, FinalStatus, Closes, ResumeSteps;
    var d := Mine(s.rows)[1];
    DecidedStatus(s, p);
    var settle := [SettleReviewStep(d.id, now)];
    var at, before := s, [];
    if s.rows.run.status == Paused {
      at := PausedResumes(s, p, d.id, d);
      ArchivedEnd(at, p);
      SignoffKept(s, at, d.id);
      if ResumePlanFor(s.ckpt.value, ReviewOf(d)).Continue? {
        before := [ResumeStep(d.id)] + ResumeSteps(s.ckpt.value, ReviewOf(d));
      }
    }
    var t := SettledTwice(at, p, d.id, now, later, d);
    RunOne(at, p, SettleReviewStep(d.id, now));
    RunConcat(s, p, before, settle);
    assert [] + settle == settle;
    AppliedCompleted(t.rows, d);
  }

  lemma AppliedCompleted(rows: Rows, d: Decision)
    requires DecisionApplied(rows, d)
    ensures rows.run.status == Completed
  {
  }

  lemma SignoffKept(s: State, t: State, decisionId: nat)
    requires t.rows == s.rows.(invoice := t.rows.invoice, ledger := t.rows.ledger)
    ensures Signoff(t.rows, decisionId) == Signoff(s.rows, decisionId)
  {
  }

  lemma ArchivedEnd(s: State, p: Params)
    requires Inv(s, p) && s.ckpt.Some? && s.ckpt.value.next == None && s.ckpt.value.w.status == GraphCompleted
    ensures Recorded(s.ckpt, KArchive)
  {
    hide RowsInv, TableInv, CheckpointInv, ExecInv, Evidences, KindsDone;
    EndArchived(s.ckpt.value, Evidences(s.rows.ledger));
  }
}
