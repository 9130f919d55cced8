/** The decisions table and the ledger over whole runs: append-only, four eyes, replayed keys. */
module History {
  import opened Domain
  import opened Services
  import Worker
  import opened Decisions
  import opened Graph
  import opened Protocol
  import opened GraphInvariant
  import opened Invariant
  import Attempts

  predicate Grows(before: Rows, after: Rows) {
    before.decisions <= after.decisions && before.ledger <= after.ledger
  }

  lemma StepGrows(s: State, p: Params, step: Step)
    ensures Grows(s.rows, Apply(s, p, step).rows)
  {
    hide ReadEvidence, Signoff, ResumePlanFor, Finish, Work, ValidProgress, Ready, Fresh, Latest, For, ByKey;
    hide ById, Objection;
    hide Worker.ValidKey, Worker.ValidActor, Worker.ValidReason, Worker.PriorRedrive, Kinds, KindOf;
    hide StatusMove, SameContent;
  }

  /** No step of any run removes or rewrites a decision or a ledger event. */
  lemma {:induction false} RunsOnlyGrow(s: State, p: Params, more: seq<Step>)
    ensures Grows(s.rows, Run(s, p, more).rows)
  {
    if more != [] {
      hide Apply;
      RunsOnlyGrow(s, p, more[..|more| - 1]);
      StepGrows(Run(s, p, more[..|more| - 1]), p, more[|more| - 1]);
    }
  }

  /** What a new key needs to be recorded: nothing decided yet for an analyst, exactly the analyst's proposal
  for a manager, who approves only what was proposed for approval. */
  predicate Admissible(rows: Rows, exceptionId: nat, request: DecisionRequest, role: Actor) {
    && ValidReasonCode(request.reasonCode) && ValidRationale(request.rationale)
    && rows.run.status == Paused && rows.exc.Some? && rows.exc.value.id == exceptionId
    && match role
       case Analyst => Mine(rows) == [] && request.proposalId == None
       case Manager =>
         && |Mine(rows)| == 1 && request.proposalId == Some(Mine(rows)[0].id)
         && (request.action == Approve ==> Mine(rows)[0].action == Approve)
       case AuditorRole => false
  }

  /** The decision, the exception in review and one event are added, and the answer names them. */
  predicate RecordedAs(
    rows: Rows, exceptionId: nat, request: DecisionRequest, role: Actor, key: string, newId: nat,
    after: Rows, r: DecisionResponse)
  {
    && role in {Analyst, Manager}
    && after == rows.(
         decisions := rows.decisions + [
           Decision(newId, exceptionId, key, request.action, request.rationale, request.reasonCode, role, request.proposalId)],
         exc := Some(ExceptionRow(exceptionId, InReview)),
         ledger := after.ledger)
    && (role == Analyst ==> after.ledger == rows.ledger + [DecisionProposed(newId, request.action)])
    && (role == Manager ==> after.ledger == rows.ledger + [DecisionAccepted(newId, request.action)])
    && r.decisionId == newId && r.exceptionId == exceptionId && r.action == request.action && r.actor == role
    && (r.stage == PendingSignoff <==> role == Analyst) && r.proposalId == request.proposalId
  }

  /** Which submissions under a new key are recorded, and what the others are told. */
  predicate Judged(
    rows: Rows, exceptionId: nat, request: DecisionRequest, role: Actor, key: string, newId: nat,
    after: Rows, r: Result<DecisionResponse, DecisionError>)
  {
    var invalid := !ValidReasonCode(request.reasonCode) || !ValidRationale(request.rationale);
    var unknown := rows.exc == None || rows.exc.value.id != exceptionId;
    var idTaken := exists d <- rows.decisions :: d.id == newId;
    && (r.Ok? <==> Admissible(rows, exceptionId, request, role) && !idTaken)
    && (r == Err(Invalid) <==> invalid) && (r == Err(NotFound) <==> !invalid && role != AuditorRole && unknown)
    && (r == Err(Unavailable) <==> Admissible(rows, exceptionId, request, role) && idTaken)
    && if r.Ok? then RecordedAs(rows, exceptionId, request, role, key, newId, after, r.value) else after == rows
  }

  lemma {:induction false} NewKeyIsJudged(
    s: State, p: Params, exceptionId: nat, request: DecisionRequest, role: Actor, key: string, newId: nat)
    requires Inv(s, p) && forall d <- s.rows.decisions :: d.key != key
    ensures var (after, r) := Submit(s.rows, exceptionId, request, role, key, newId);
            Judged(s.rows, exceptionId, request, role, key, newId, after, r)
  {
    hide GraphOk, RunInv, ClaimsInv, UniqueKeys, StatusOf, Latest, Reported, Recorded, For, ByKey, ById;
    hide ValidReasonCode, ValidRationale, SameContent;
    ByKeyFinds(s.rows.decisions, key);
    ByIdFinds(s.rows.decisions, newId);
  }

  /** In every reachable state a submission under a new key is recorded exactly when it is admissible;
  otherwise nothing is written. */
  lemma {:induction false} SubmissionIsJudged(
    p: Params, steps: seq<Step>, exceptionId: nat, request: DecisionRequest, role: Actor, key: string, newId: nat)
    requires p.retry.maxAttempts >= 1
    requires forall d <- Run(Init(), p, steps).rows.decisions :: d.key != key
    ensures var rows := Run(Init(), p, steps).rows;
            var (after, r) := Submit(rows, exceptionId, request, role, key, newId);
            Judged(rows, exceptionId, request, role, key, newId, after, r)
  {
    hide Run, Inv, Submit, Judged;
    InitInv(p);
    RunsKeepInv(Init(), p, steps);
    NewKeyIsJudged(Run(Init(), p, steps), p, exceptionId, request, role, key, newId);
  }

  /** Only a new key is recorded, and its decision is in the table from then on. */
  lemma RecordedIsNew(rows: Rows, exceptionId: nat, request: DecisionRequest, role: Actor, key: string, newId: nat)
    ensures var (after, r) := Submit(rows, exceptionId, request, role, key, newId);
            after != rows ==> r.Ok? && forall d <- rows.decisions :: d.key != key
  {
    hide For, ById, Objection, ValidRequest;
    ByKeyFinds(rows.decisions, key);
  }

  lemma DecisionSurvives(decisions: seq<Decision>, d: Decision, after: seq<Decision>)
    requires decisions + [d] <= after
    ensures d in after
  {
    assert (decisions + [d])[|decisions|] == d;
  }

  /** What an earlier recording makes of a second submission under its key. */
  predicate Answered(
    exceptionId: nat, request: DecisionRequest, role: Actor, first: DecisionResponse,
    exceptionId': nat, request': DecisionRequest, role': Actor, again: Result<DecisionResponse, DecisionError>)
  {
    && (again == Ok(first) <==>
          && exceptionId' == exceptionId && request'.action == request.action && request'.rationale == request.rationale
          && request'.reasonCode == request.reasonCode && request'.proposalId == request.proposalId && role' == role)
    && (again != Ok(first) ==>
          again == Err(if ValidReasonCode(request'.reasonCode) && ValidRationale(request'.rationale) then Conflict else Invalid))
  }

  /** However many submissions, crashes and other steps come after a decision was recorded, a second
  submission under its key writes nothing; it gets the very same response when every field agrees, and a
  conflict otherwise. */
  lemma {:induction false} ReplayedKeyForever(
    p: Params, steps: seq<Step>, more: seq<Step>,
    exceptionId: nat, request: DecisionRequest, role: Actor, key: string, newId: nat,
    exceptionId': nat, request': DecisionRequest, role': Actor, newId': nat)
    requires p.retry.maxAttempts >= 1
    ensures var s := Run(Init(), p, steps);
            var (first, r) := Submit(s.rows, exceptionId, request, role, key, newId);
            var t := Run(s.(rows := first), p, more);
            var (after, again) := Submit(t.rows, exceptionId', request', role', key, newId');
            first != s.rows ==>
              && after == t.rows && r.Ok? && RecordedAs(s.rows, exceptionId, request, role, key, newId, first, r.value)
              && Answered(exceptionId, request, role, r.value, exceptionId', request', role', again)
  {
    hide Run, Inv, Submit, Admissible, ValidReasonCode, ValidRationale, UniqueKeys;
    var s := Run(Init(), p, steps);
    var (first, r) := Submit(s.rows, exceptionId, request, role, key, newId);
    InitInv(p);
    RunsKeepInv(Init(), p, steps);
    RecordedIsNew(s.rows, exceptionId, request, role, key, newId);
    if first != s.rows {
      NewKeyIsJudged(s, p, exceptionId, request, role, key, newId);
      SubmitKeepsInv(s, p, exceptionId, request, role, key, newId);
      RunsKeepInv(s.(rows := first), p, more);
      RunsOnlyGrow(s.(rows := first), p, more);
      var t := Run(s.(rows := first), p, more);
      var d := Decision(newId, exceptionId, key, request.action, request.rationale, request.reasonCode, role, request.proposalId);
      DecisionSurvives(s.rows.decisions, d, t.rows.decisions);
      KeysUnique(t, p);
      ReplayedKey(t.rows, d, exceptionId', request', role', newId');
    }
  }

  lemma KeysUnique(s: State, p: Params)
    requires Inv(s, p)
    ensures UniqueKeys(s.rows.decisions)
  {
    hide GraphOk, RowsInv, UniqueKeys, RunInv, ClaimsInv, StatusOf;
  }

  /** The decisions on the exception are none, one analyst proposal, or a proposal and the manager
  decision superseding it; the exception's status says which, and decisions freeze the run row. */
  lemma DecisionsFormAPair(p: Params, steps: seq<Step>)
    requires p.retry.maxAttempts >= 1
    ensures var rows := Run(Init(), p, steps).rows;
            && FourEyes(Mine(rows))
            && (rows.exc.Some? ==>
                  && (rows.exc.value.status == Open <==> Mine(rows) == [])
                  && (rows.exc.value.status in {Resolved, Escalated} ==> |Mine(rows)| == 2))
            && (Mine(rows) != [] ==> rows.run.status in {Paused, Completed})
            && (forall i, j | 0 <= i < j < |rows.decisions| :: rows.decisions[i].key != rows.decisions[j].key)
  {
    hide Run, GraphOk, RunInv, ClaimsInv, StatusOf, Latest, Mine;
    InitInv(p);
    RunsKeepInv(Init(), p, steps);
  }

  // ---------------------------------------------------------------- redrive keys

  predicate EachKeyOnce(ledger: seq<Event>) {
    forall i, j | 0 <= i < j < |ledger| && ledger[i].Redriven? && ledger[j].Redriven? :: ledger[i].key != ledger[j].key
  }

  /** The ledger as it was, or with one event that is no redrive. */
  predicate NotRedriven(ledger: seq<Event>, after: seq<Event>) {
    after == ledger || (|after| > 0 && after[..|after| - 1] == ledger && !after[|after| - 1].Redriven?)
  }

  lemma WorkersRedriveNothing(s: State, p: Params, step: Step)
    requires step.FailStep? || step.BeginStep? || step.SettleStep? || step.SettleReviewStep? || step.SubmitStep? || step.ForeignDecisionStep?
    ensures NotRedriven(s.rows.ledger, Apply(s, p, step).rows.ledger)
  {
    hide Worker.ValidErrorType, For, ById, ByKey, Latest, ValidRequest, Objection, Signoff;
  }

  lemma {:induction false} WriteRedrivesNothing(s: State, p: Params, answer: Event, newId: nat)
    requires Inv(s, p)
    ensures NotRedriven(s.rows.ledger, Commit(s, answer, newId).rows.ledger)
  {
    hide GraphOk, TableInv, Evidences, Kinds, WriteEvidence, Latest, Handled, Reported, FourEyes, Work, Grounded, For;
    if s.exec.Some? && s.exec.value.looked && |s.exec.value.got| < |Kinds(s.exec.value.node)| {
      LatestEvidence(s.rows.ledger, KTriage);
      WriteShape(s.exec.value, s.rows, answer, newId);
      var after := Commit(s, answer, newId).rows;
      if after != s.rows {
        CommitParts(s.rows.(exc := after.exc), answer);
      }
    }
  }

  /** Only a redrive adds a redrive event, and only under a key the ledger does not know. */
  lemma {:induction false} StepRedrives(s: State, p: Params, step: Step)
    requires Inv(s, p) && EachKeyOnce(s.rows.ledger)
    ensures EachKeyOnce(Apply(s, p, step).rows.ledger)
  {
    hide Look, Commit, RunEntry, ResumeEntry, WriteCheckpoint, SettleReview, Submit, Inv, ByKey, ById;
    hide Worker.Begin, Worker.Settle, Worker.Fail, Worker.ValidKey, Worker.ValidActor, Worker.ValidReason, Worker.PriorRedrive;
    match step
    case CommitStep(answer, newId) => WriteRedrivesNothing(s, p, answer, newId);
    case SubmitStep(_, _, _, _, _) => WorkersRedriveNothing(s, p, step);
    case ForeignDecisionStep(_) => WorkersRedriveNothing(s, p, step);
    case DuplicateUploadStep =>
    case FailStep(_, _, _, _) => WorkersRedriveNothing(s, p, step);
    case RedriveStep(key, _, _) => Worker.PriorRedriveFinds(s.rows.ledger, key);
    case BeginStep(_, _) => WorkersRedriveNothing(s, p, step);
    case SettleStep(_, _) => WorkersRedriveNothing(s, p, step);
    case SettleReviewStep(_, _) => WorkersRedriveNothing(s, p, step);
    case _ => Attempts.ExecutorsKeepRows(s, p, step);
  }

  lemma {:induction false} RunsRedriveOnce(s: State, p: Params, more: seq<Step>)
    requires Inv(s, p) && EachKeyOnce(s.rows.ledger) && p.retry.maxAttempts >= 1
    ensures EachKeyOnce(Run(s, p, more).rows.ledger)
  {
    if more != [] {
      hide Inv, Apply, EachKeyOnce;
      RunsRedriveOnce(s, p, more[..|more| - 1]);
      RunsKeepInv(s, p, more[..|more| - 1]);
      StepRedrives(Run(s, p, more[..|more| - 1]), p, more[|more| - 1]);
    }
  }

  predicate RedriveKnown(ledger: seq<Event>, key: string) {
    exists e <- ledger :: e.Redriven? && e.key == key
  }

  /** What a redrive does in a state of the protocol: a failed run starts again in the next cycle with no
  attempt used, and the event says who asked for it and why. */
  lemma {:induction false} RedriveIsJudged(s: State, p: Params, key: string, actor: string, reason: string)
    requires Inv(s, p)
    ensures var (after, r) := Worker.Redrive(s.rows, key, actor, reason);
            var cycle := Worker.Stored(s.rows.run).cycle;
            && (r == Ok(true) <==>
                  && Worker.ValidKey(key) && Worker.ValidActor(actor) && Worker.ValidReason(reason)
                  && s.rows.run.status == Failed && !RedriveKnown(s.rows.ledger, key))
            && after == if r == Ok(true)
                        then s.rows.(run := RunRow(Queued, None, None, Some(RetryState(0, cycle + 1, None, None, false))),
                                     ledger := s.rows.ledger + [Redriven(key, actor, reason, cycle, cycle + 1)])
                        else s.rows
  {
    hide GraphOk, RowsInv, UniqueKeys, ClaimsInv, StatusOf, Count, LatestDeadLetter, Worker.PriorRedrive;
    hide Worker.ValidKey, Worker.ValidActor, Worker.ValidReason;
    Worker.PriorRedriveFinds(s.rows.ledger, key);
  }

  /** A known key writes nothing; it answers "already redriven" to the request in the event alone. */
  lemma KnownKey(rows: Rows, e: Event, actor: string, reason: string)
    requires EachKeyOnce(rows.ledger) && e in rows.ledger && e.Redriven?
    requires Worker.ValidKey(e.key) && Worker.ValidActor(e.actor) && Worker.ValidReason(e.reason)
    ensures Worker.Redrive(rows, e.key, actor, reason)
         == (rows, if actor == e.actor && reason == e.reason then Ok(false) else Err(Worker.InvalidRedrive))
    ensures forall other <- rows.ledger :: other.Redriven? && other.key == e.key ==> other == e
  {
    hide Worker.ValidKey, Worker.ValidActor, Worker.ValidReason, Worker.PriorRedrive;
    Worker.PriorRedriveFinds(rows.ledger, e.key);
    forall other | other in rows.ledger && other.Redriven? && other.key == e.key ensures other == e {
      var i :| 0 <= i < |rows.ledger| && rows.ledger[i] == e;
      var j :| 0 <= j < |rows.ledger| && rows.ledger[j] == other;
      assert i == j;
    }
  }

  lemma EventSurvives(ledger: seq<Event>, e: Event, after: seq<Event>)
    requires ledger + [e] <= after
    ensures e in after
  {
    assert (ledger + [e])[|ledger|] == e;
  }

  /** However many steps come after a redrive, stale workers and further redrives included, its key never
  redrives again: the same actor and reason are told so, anybody else is refused, and the ledger holds
  that one redrive under the key. */
  lemma {:induction false} RedriveKeyForever(
    p: Params, steps: seq<Step>, more: seq<Step>, key: string, actor: string, reason: string,
    actor': string, reason': string)
    requires p.retry.maxAttempts >= 1
    ensures var s := Run(Init(), p, steps);
            var (first, r) := Worker.Redrive(s.rows, key, actor, reason);
            var t := Run(s.(rows := first), p, more);
            var cycle := Worker.Stored(s.rows.run).cycle;
            r == Ok(true) ==>
              && Worker.Redrive(t.rows, key, actor', reason')
                 == (t.rows, if actor' == actor && reason' == reason then Ok(false) else Err(Worker.InvalidRedrive))
              && Redriven(key, actor, reason, cycle, cycle + 1) in t.rows.ledger
              && EachKeyOnce(t.rows.ledger)
  {
    hide Run, Inv, Worker.Redrive, EachKeyOnce, Worker.ValidKey, Worker.ValidActor, Worker.ValidReason, RedriveKnown;
    var s := Run(Init(), p, steps);
    var (first, r) := Worker.Redrive(s.rows, key, actor, reason);
    InitInv(p);
    InitOnce();
    RunsKeepInv(Init(), p, steps);
    RunsRedriveOnce(Init(), p, steps);
    if r == Ok(true) {
      var cycle := Worker.Stored(s.rows.run).cycle;
      RedriveIsJudged(s, p, key, actor, reason);
      StepRedrives(s, p, RedriveStep(key, actor, reason));
      RedriveKeepsInv(s, p, key, actor, reason);
      RunsRedriveOnce(s.(rows := first), p, more);
      RunsOnlyGrow(s.(rows := first), p, more);
      var t := Run(s.(rows := first), p, more);
      var e := Redriven(key, actor, reason, cycle, cycle + 1);
      EventSurvives(s.rows.ledger, e, t.rows.ledger);
      KnownKey(t.rows, e, actor', reason');
    }
  }

  lemma InitOnce()
    ensures EachKeyOnce(Init().rows.ledger)
  {
  }

  // ---------------------------------------------------------------- decisions can be read back

  /** A stored decision gives a review the graph state's schema admits. */
  predicate Storable(mine: seq<Decision>) {
    forall d <- mine :: ValidReasonCode(d.reasonCode) && ValidRationale(d.rationale)
  }

  lemma {:induction false} SubmitStorable(
    s: State, p: Params, exceptionId: nat, request: DecisionRequest, role: Actor, key: string, newId: nat)
    requires Storable(Mine(s.rows))
    ensures Storable(Mine(Apply(s, p, SubmitStep(exceptionId, request, role, key, newId)).rows))
  {
    hide ValidReasonCode, ValidRationale, For, ByKey, ById, Objection, SameContent;
    var after := Submit(s.rows, exceptionId, request, role, key, newId).0;
    if after != s.rows {
      ForAppend(s.rows.decisions, after.decisions[|s.rows.decisions|], s.rows.exc.value.id);
    }
  }

  lemma {:induction false} WriteStorable(s: State, p: Params, answer: Event, newId: nat)
    requires Inv(s, p) && Storable(Mine(s.rows))
    ensures Storable(Mine(Commit(s, answer, newId).rows))
  {
    hide GraphOk, TableInv, Evidences, Kinds, WriteEvidence, Latest, Handled, Reported, FourEyes, Work, Grounded, For;
    hide KindOf, CommitEvent, Storable;
    assert Storable([]) by { NoneStorable(); }
    if s.exec.Some? && s.exec.value.looked && |s.exec.value.got| < |Kinds(s.exec.value.node)| {
      LatestEvidence(s.rows.ledger, KTriage);
      WriteShape(s.exec.value, s.rows, answer, newId);
      var after := Commit(s, answer, newId).rows;
      if after != s.rows {
        CommitParts(s.rows.(exc := after.exc), answer);
      }
    }
  }

  lemma NoneStorable()
    ensures Storable([])
  {
  }

  lemma {:induction false} StepStorable(s: State, p: Params, step: Step)
    requires Inv(s, p) && Storable(Mine(s.rows))
    ensures Storable(Mine(Apply(s, p, step).rows))
  {
    hide Storable, Look, Commit, RunEntry, ResumeEntry, WriteCheckpoint, SettleReview, Submit, Mine, GraphOk, RowsInv;
    hide Worker.Begin, Worker.Settle, Worker.Fail, Worker.Redrive, ByKey, ById, UniqueKeys, RunInv;
    match step
    case CommitStep(answer, newId) => WriteStorable(s, p, answer, newId);
    case SubmitStep(exceptionId, request, role, key, newId) => SubmitStorable(s, p, exceptionId, request, role, key, newId);
    case ForeignDecisionStep(d) => if Apply(s, p, step) != s { ForeignShape(s.rows, d); }
    case DuplicateUploadStep => SameMine(s.rows, s.rows.ledger + [DuplicateRejected]);
    case FailStep(_, _, _, _) => WorkerKeepsMine(s, p, step);
    case RedriveStep(_, _, _) => WorkerKeepsMine(s, p, step);
    case BeginStep(_, _) => WorkerKeepsMine(s, p, step);
    case SettleStep(_, _) => WorkerKeepsMine(s, p, step);
    case SettleReviewStep(_, _) => WorkerKeepsMine(s, p, step);
    case _ => Attempts.ExecutorsKeepRows(s, p, step);
  }

  lemma WorkerKeepsMine(s: State, p: Params, step: Step)
    requires step.FailStep? || step.RedriveStep? || step.BeginStep? || step.SettleStep? || step.SettleReviewStep?
    ensures Mine(Apply(s, p, step).rows) == Mine(s.rows)
  {
    hide Worker.ValidKey, Worker.ValidActor, Worker.ValidReason, Worker.PriorRedrive, Worker.ValidErrorType, For, ById, Latest;
  }

  lemma {:induction false} RunsStorable(s: State, p: Params, more: seq<Step>)
    requires Inv(s, p) && Storable(Mine(s.rows)) && p.retry.maxAttempts >= 1
    ensures Storable(Mine(Run(s, p, more).rows))
  {
    if more != [] {
      hide Inv, Apply, Storable, Mine;
      RunsStorable(s, p, more[..|more| - 1]);
      RunsKeepInv(s, p, more[..|more| - 1]);
      StepStorable(Run(s, p, more[..|more| - 1]), p, more[|more| - 1]);
    }
  }

  /** In every reachable state the decisions on the exception can be read back as reviews, and the stored
  state's content hash is one its schema admits. */
  lemma {:induction false} StoredValuesAreValid(p: Params, steps: seq<Step>)
    requires p.retry.maxAttempts >= 1
    ensures var s := Run(Init(), p, steps);
            && (forall d <- Mine(s.rows) :: ValidReasonCode(ReviewOf(d).reasonCode) && ValidRationale(ReviewOf(d).rationale))
            && (s.ckpt.Some? ==> ValidHash(s.ckpt.value.w.contentHash))
  {
    hide Run, GraphOk, RowsInv, TableInv, ValidReasonCode, ValidRationale, ValidHash;
    InitInv(p);
    RunsKeepInv(Init(), p, steps);
    RunsStorable(Init(), p, steps);
  }

  // ---------------------------------------------------------------- one ledger event per decision

  predicate IsProposal(e: Event) {
    e.DecisionProposed?
  }

  predicate IsAcceptance(e: Event) {
    e.DecisionAccepted?
  }

  /** The ledger names the proposal and the signoff once each, as soon as they exist. */
  predicate Logged(rows: Rows) {
    && Count(rows.ledger, IsProposal) == (if Mine(rows) != [] then 1 else 0)
    && Count(rows.ledger, IsAcceptance) == (if |Mine(rows)| == 2 then 1 else 0)
  }

  /** Appending anything else changes neither count. */
  lemma OtherEvent(rows: Rows, after: Rows, e: Event)
    requires Logged(rows) && Mine(after) == Mine(rows) && after.ledger == rows.ledger + [e]
    requires !e.DecisionProposed? && !e.DecisionAccepted?
    ensures Logged(after)
  {
    CountAppend(rows.ledger, e, IsProposal);
    CountAppend(rows.ledger, e, IsAcceptance);
    hide Count, Mine;
  }

  /** A new decision is a first proposal or the second decision, and its event says which. */
  lemma SubmitEvent(rows: Rows, exceptionId: nat, request: DecisionRequest, role: Actor, key: string, newId: nat)
    ensures var after := Submit(rows, exceptionId, request, role, key, newId).0;
            after != rows ==>
              && |after.ledger| == |rows.ledger| + 1 && after.ledger[..|rows.ledger|] == rows.ledger
              && var e := after.ledger[|rows.ledger|];
                 (e.DecisionProposed? && Mine(rows) == []) || (e.DecisionAccepted? && |Mine(rows)| == 1)
  {
    hide For, ByKey, ById;
  }

  lemma {:induction false} SubmitLogged(s: State, p: Params, exceptionId: nat, request: DecisionRequest, role: Actor, key: string, newId: nat)
    requires Inv(s, p) && Logged(s.rows)
    ensures Logged(Submit(s.rows, exceptionId, request, role, key, newId).0)
  {
    hide GraphOk, RunInv, ClaimsInv, StatusOf, Handled, Latest, Reported, FourEyes, Mine, Count, Submit;
    hide UniqueKeys, Quiet;
    var after := Submit(s.rows, exceptionId, request, role, key, newId).0;
    if after != s.rows {
      SubmitEvent(s.rows, exceptionId, request, role, key, newId);
      SubmitShape(s.rows, exceptionId, request, role, key, newId);
      var e := after.ledger[|s.rows.ledger|];
      assert after.ledger == s.rows.ledger + [e];
      CountAppend(s.rows.ledger, e, IsProposal);
      CountAppend(s.rows.ledger, e, IsAcceptance);
    }
  }

  lemma WriteKeepsLogged(x: Exec, rows: Rows, answer: Event, newId: nat)
    requires |x.got| < |Kinds(x.node)| && Logged(rows)
    requires rows.exc.Some? <==> Latest(rows.ledger, KTriage).Some?
    ensures Logged(WriteEvidence(x, rows, answer, newId).0)
  {
    hide Kinds, WriteEvidence, Latest, Logged, Work, Grounded, For, CommitEvent, KindOf;
    var after := WriteEvidence(x, rows, answer, newId).0;
    WriteShape(x, rows, answer, newId);
    if after != rows {
      CommitParts(rows.(exc := after.exc), answer);
      EvidenceIsNoDecision(answer);
      OtherEvent(rows, after, answer);
    }
  }

  lemma {:induction false} WriteLogged(s: State, p: Params, answer: Event, newId: nat)
    requires Inv(s, p) && Logged(s.rows)
    ensures Logged(Commit(s, answer, newId).rows)
  {
    hide GraphOk, TableInv, Evidences, Kinds, WriteEvidence, Latest, Logged, Mine, Handled, Reported, FourEyes;
    if s.exec.Some? && s.exec.value.looked && |s.exec.value.got| < |Kinds(s.exec.value.node)| {
      LatestEvidence(s.rows.ledger, KTriage);
      WriteKeepsLogged(s.exec.value, s.rows, answer, newId);
    }
  }

  lemma EvidenceIsNoDecision(e: Event)
    ensures KindOf(e).Some? ==> !e.DecisionProposed? && !e.DecisionAccepted?
  {
  }

  lemma WorkerLogged(s: State, p: Params, step: Step)
    requires Logged(s.rows) && (step.FailStep? || step.RedriveStep?)
    ensures Logged(Apply(s, p, step).rows)
  {
    hide Count, Worker.ValidKey, Worker.ValidActor, Worker.ValidReason, Worker.PriorRedrive, Logged, For;
    var after := Apply(s, p, step).rows;
    if after.ledger != s.rows.ledger {
      OtherEvent(s.rows, after, after.ledger[|s.rows.ledger|]);
    } else {
      SameLogged(s.rows, after);
    }
  }

  lemma SameLogged(rows: Rows, after: Rows)
    requires Logged(rows) && after.ledger == rows.ledger && Mine(after) == Mine(rows)
    ensures Logged(after)
  {
  }

  lemma SettlementLogged(s: State, p: Params, step: Step)
    requires Logged(s.rows) && (step.BeginStep? || step.SettleStep? || step.SettleReviewStep?)
    ensures Logged(Apply(s, p, step).rows)
  {
    hide Logged, For, ById, Latest;
    SameLogged(s.rows, Apply(s, p, step).rows);
  }

  lemma {:induction false} StepLogged(s: State, p: Params, step: Step)
    requires Inv(s, p) && Logged(s.rows)
    ensures Logged(Apply(s, p, step).rows)
  {
    hide Logged, Look, Commit, RunEntry, ResumeEntry, WriteCheckpoint, SettleReview, Submit, Mine, GraphOk, RowsInv;
    hide Worker.Begin, Worker.Settle, Worker.Fail, Worker.Redrive, ByKey, ById, UniqueKeys, RunInv;
    match step
    case CommitStep(answer, newId) => WriteLogged(s, p, answer, newId);
    case SubmitStep(exceptionId, request, role, key, newId) => SubmitLogged(s, p, exceptionId, request, role, key, newId);
    case ForeignDecisionStep(d) =>
      if Apply(s, p, step) != s {
        ForeignShape(s.rows, d);
        SameLogged(s.rows, Apply(s, p, step).rows);
      }
    case DuplicateUploadStep =>
      SameMine(s.rows, s.rows.ledger + [DuplicateRejected]);
      OtherEvent(s.rows, Apply(s, p, step).rows, DuplicateRejected);
    case FailStep(_, _, _, _) => WorkerLogged(s, p, step);
    case RedriveStep(_, _, _) => WorkerLogged(s, p, step);
    case BeginStep(_, _) => SettlementLogged(s, p, step);
    case SettleStep(_, _) => SettlementLogged(s, p, step);
    case SettleReviewStep(_, _) => SettlementLogged(s, p, step);
    case _ => Attempts.ExecutorsKeepRows(s, p, step);
  }

  lemma SameMine(rows: Rows, ledger: seq<Event>)
    ensures Mine(rows.(ledger := ledger)) == Mine(rows)
  {
  }

  lemma {:induction false} RunsLogged(s: State, p: Params, more: seq<Step>)
    requires Inv(s, p) && Logged(s.rows) && p.retry.maxAttempts >= 1
    ensures Logged(Run(s, p, more).rows)
  {
    if more != [] {
      hide Inv, Apply, Logged;
      RunsLogged(s, p, more[..|more| - 1]);
      RunsKeepInv(s, p, more[..|more| - 1]);
      StepLogged(Run(s, p, more[..|more| - 1]), p, more[|more| - 1]);
    }
  }

  /** In every reachable state each decision on the exception has exactly one ledger event. */
  lemma {:induction false} DecisionsAreLogged(p: Params, steps: seq<Step>)
    requires p.retry.maxAttempts >= 1
    ensures Logged(Run(Init(), p, steps).rows)
  {
    assert Count([IngestAccepted], IsProposal) == 0 && Count([IngestAccepted], IsAcceptance) == 0;
    hide Run, Inv;
    InitInv(p);
    RunsLogged(Init(), p, steps);
  }
}
