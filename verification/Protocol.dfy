/** The durable invoice protocol as one state machine over atomic transactions.

Every database transaction, every ledger read and every checkpoint write is one step. The run
lock admits one executor of the graph; a crash may take it away between any two steps. Any claim
ever issued may still settle or fail, so stale workers are included. A step that its code would
refuse leaves the state as it is. */
module Protocol {
  import opened Domain
  import opened Graph
  import opened Services
  import Worker
  import opened Decisions

  datatype Params = Params(retry: Worker.RetryConfig, contentHash: string, duplicate: bool)

  datatype Checkpoint = Checkpoint(w: GraphState, next: Option<Node>)

  /** The holder of the run lock: the loaded state, its node, the evidence its services returned so
  far, and whether the service in progress found no committed evidence. */
  datatype Exec = Exec(base: GraphState, node: Node, got: seq<Event>, looked: bool, env: Env)

  /** `claims` and `returned` remember every claim issued and every status a run reported. */
  datatype State = State(
    rows: Rows, ckpt: Option<Checkpoint>, exec: Option<Exec>, claims: set<RunAttempt>, returned: set<GraphStatus>)

  function Init(): State {
    State(Rows(RunRow(Queued, None, None, None), InQueue, None, [], [IngestAccepted]), None, None, {}, {})
  }

  datatype Step =
    | BeginStep(now: int, continuation: bool)
    | SettleStep(status: GraphStatus, now: int)
    | FailStep(attempt: RunAttempt, errorType: string, retryable: bool, now: int)
    | RedriveStep(key: string, actor: string, reason: string)
    | SubmitStep(exceptionId: nat, request: DecisionRequest, role: Actor, key: string, newId: nat)
    | ForeignDecisionStep(decision: Decision)
    | DuplicateUploadStep
    | RunStep(asOf: int)
    | ResumeStep(decisionId: nat)
    | LookStep(snapshot: Option<Snapshot>, stalePo: bool)
    | CommitStep(answer: Event, newId: nat)
    | CheckpointStep
    | CrashStep
    | SettleReviewStep(decisionId: nat, now: int)

  // ---------------------------------------------------------------- executing a node

  function AbsorbAll(w: GraphState, got: seq<Event>, env: Env): GraphState {
    if got == [] then w else Absorb(got[|got| - 1], AbsorbAll(w, got[..|got| - 1], env), env)
  }

  function Work(x: Exec): GraphState {
    AbsorbAll(x.base, x.got, x.env)
  }

  function Starting(c: Checkpoint, decision: Option<ReviewDecision>): Exec
    requires c.next.Some?
  {
    Exec(c.w, c.next.value, [], false, Env(None, false, decision))
  }

  /** `match` reads the ERP first and `policy` evaluates the order's age before its taxonomy. */
  function Observe(x: Exec, k: Kind, snapshot: Option<Snapshot>, stalePo: bool): Env {
    match k
    case KMatch =>
      var po := if x.base.extraction.Some? then x.base.extraction.value.poNumber else None;
      x.env.(snapshot := if po.Some? then snapshot else None)
    case KTaxonomy => x.env.(stalePo := stalePo)
    case _ => x.env
  }

  /** One service's read: its required inputs, the committed evidence, the reconciliation. None is a
  raised error, which ends the execution. */
  function ReadEvidence(x: Exec, ledger: seq<Event>, snapshot: Option<Snapshot>, stalePo: bool): Option<Exec>
    requires |x.got| < |Kinds(x.node)|
  {
    var k := Kinds(x.node)[|x.got|];
    var seen := x.(env := Observe(x, k, snapshot, stalePo));
    if !Ready(k, Work(seen), seen.env) then None
    else if k == KTriage then Some(seen.(looked := true))
    else
      match Latest(ledger, k)
      case None => Some(seen.(looked := true))
      case Some(e) =>
        if Accepts(k, e, Work(seen), seen.env) then Some(seen.(got := x.got + [e])) else None
  }

  function Look(s: State, snapshot: Option<Snapshot>, stalePo: bool): State {
    match s.exec
    case None => s
    case Some(x) =>
      if x.looked || |x.got| >= |Kinds(x.node)| then s
      else s.(exec := ReadEvidence(x, s.rows.ledger, snapshot, stalePo))
  }

  /** One service's write transaction; without an executor the write raised. */
  function WriteEvidence(x: Exec, rows: Rows, answer: Event, newId: nat): (Rows, Option<Exec>)
    requires |x.got| < |Kinds(x.node)|
  {
    var k := Kinds(x.node)[|x.got|];
    if !Ready(k, Work(x), x.env) || !Fresh(k, answer, Work(x), x.env) then (rows, Some(x)) // no such answer
    else if k == KTriage then
      match PrepareTriage(rows, answer.triage, newId)
      case (_, Err(_)) => (rows, None)
      case (written, Ok(t)) => (written, Some(x.(looked := false, got := x.got + [TriagePrepared(t)])))
    else (CommitEvent(rows, answer), Some(x.(looked := false, got := x.got + [answer])))
  }

  function Commit(s: State, answer: Event, newId: nat): State {
    match s.exec
    case None => s
    case Some(x) =>
      if !x.looked || |x.got| >= |Kinds(x.node)| then s
      else
        var (rows, next) := WriteEvidence(x, s.rows, answer, newId);
        s.(rows := rows, exec := next)
  }

  /** The synchronous checkpoint after a node; the graph then goes on, ends or waits for a human. */
  function WriteCheckpoint(s: State): State {
    match s.exec
    case None => s
    case Some(x) =>
      if x.looked || |x.got| != |Kinds(x.node)| then s
      else
        var w := Finish(x.node, Work(x));
        if !ValidProgress(w) then s.(exec := None)
        else
          var c := Checkpoint(w, Successor(x.node, w));
          if c.next == None || c.next == Some(HumanReview) then
            s.(ckpt := Some(c), exec := None, returned := s.returned + {w.status})
          else s.(ckpt := Some(c), exec := Some(Starting(c, x.env.decision)))
  }

  // ---------------------------------------------------------------- entries of the runner

  function RunEntry(s: State, p: Params, asOf: int): State {
    if s.exec.Some? then s // the run lock is taken
    else
      match s.ckpt
      case None =>
        if !ValidHash(p.contentHash) then s // no such state can be loaded
        else
          var c := Checkpoint(InitialState(asOf, p.contentHash, p.duplicate), Some(Ingest));
          s.(ckpt := Some(c), exec := Some(Starting(c, None)))
      case Some(c) =>
        if c.w.status in {GraphCompleted, GraphRejected, AwaitingReview} then s.(returned := s.returned + {c.w.status})
        else if c.next == None then s
        else s.(exec := Some(Starting(c, None)))
  }

  function ReviewOf(d: Decision): ReviewDecision {
    ReviewDecision(d.action, d.actor, d.rationale, d.reasonCode)
  }

  /** The accepted decision of this run's exception, when its independent signoff holds. */
  function Signoff(rows: Rows, decisionId: nat): Option<Decision> {
    match ById(rows.decisions, decisionId)
    case None => None
    case Some(d) =>
      if rows.exc == None || d.exceptionId != rows.exc.value.id || d.actor != Manager || d.supersedes == None then None
      else
        match ById(rows.decisions, d.supersedes.value)
        case None => None
        case Some(p) => if p.actor == Analyst && (d.action == Approve ==> p.action == Approve) then Some(d) else None
  }

  datatype ResumePlan = AlreadyDone | Continue(x: Exec) | InvalidCheckpoint

  function ResumePlanFor(c: Checkpoint, review: ReviewDecision): ResumePlan {
    if c.w.status == GraphCompleted && c.w.review == Some(review) then AlreadyDone
    else if c.w.status == AwaitingReview && c.next == Some(HumanReview) then Continue(Starting(c, Some(review)))
    else if c.w.status == GraphRunning && c.w.review == Some(review) && c.next.Some? then
      Continue(Starting(c, Some(review)))
    else InvalidCheckpoint
  }

  function ResumeEntry(s: State, decisionId: nat): State {
    match Signoff(s.rows, decisionId)
    case None => s
    case Some(d) =>
      if s.rows.run.status !in {Paused, Completed} || s.exec.Some? || s.ckpt == None then s
      else
        match ResumePlanFor(s.ckpt.value, ReviewOf(d))
        case Continue(x) => s.(exec := Some(x))
        case _ => s
  }

  function FinalStatus(a: Action): ExceptionStatus {
    if a == Escalate then Escalated else Resolved
  }

  /** The status a settled exception has, action by action. */
  predicate Closes(status: ExceptionStatus, a: Action) {
    (status == Escalated <==> a == Escalate) && (status == Resolved <==> a in {Approve, Return})
  }

  datatype SettleError = NoSignoff | RunChanged | EvidenceIncomplete | ExceptionChanged

  /** The settlement transaction of the review worker. */
  function SettleReview(rows: Rows, decisionId: nat, now: int): (Rows, Result<ExceptionStatus, SettleError>) {
    match Signoff(rows, decisionId)
    case None => (rows, Err(NoSignoff))
    case Some(d) =>
      if rows.run.status !in {Paused, Completed} then (rows, Err(RunChanged))
      else if Latest(rows.ledger, KReview) != Some(ReviewRecorded(ReviewOf(d))) || Latest(rows.ledger, KArchive) == None then
        (rows, Err(EvidenceIncomplete))
      else
        var final := FinalStatus(d.action);
        if rows.exc.value.status !in {InReview, final} then (rows, Err(ExceptionChanged))
        else
          (rows.(exc := Some(rows.exc.value.(status := final)),
                 run := if rows.run.status == Paused
                        then rows.run.(status := Completed, completedAt := Some(now)) else rows.run),
           Ok(final))
  }

  // ---------------------------------------------------------------- one step, and whole runs

  function Apply(s: State, p: Params, step: Step): State {
    match step
    case BeginStep(now, continuation) =>
      var (rows, outcome) := Worker.Begin(s.rows, p.retry, now, continuation);
      s.(rows := rows, claims := if outcome.Claimed? then s.claims + {outcome.attempt} else s.claims)
    case SettleStep(status, now) =>
      if s.claims == {} || status !in s.returned then s else s.(rows := Worker.Settle(s.rows, status, now).0)
    case FailStep(a, errorType, retryable, now) =>
      if a !in s.claims then s
      else
        var terminal := !retryable || a.attempt >= p.retry.maxAttempts;
        s.(rows := Worker.Fail(s.rows, a, errorType, retryable, terminal, now).0)
    case RedriveStep(key, actor, reason) => s.(rows := Worker.Redrive(s.rows, key, actor, reason).0)
    case SubmitStep(exceptionId, request, role, key, newId) =>
      s.(rows := Submit(s.rows, exceptionId, request, role, key, newId).0)
    case ForeignDecisionStep(d) =>
      if ByKey(s.rows.decisions, d.key).Some? || ById(s.rows.decisions, d.id).Some?
         || (s.rows.exc.Some? && s.rows.exc.value.id == d.exceptionId) then s
      else s.(rows := s.rows.(decisions := s.rows.decisions + [d]))
    case DuplicateUploadStep => s.(rows := s.rows.(ledger := s.rows.ledger + [DuplicateRejected]))
    case RunStep(asOf) => RunEntry(s, p, asOf)
    case ResumeStep(decisionId) => ResumeEntry(s, decisionId)
    case LookStep(snapshot, stalePo) => Look(s, snapshot, stalePo)
    case CommitStep(answer, newId) => Commit(s, answer, newId)
    case CheckpointStep => WriteCheckpoint(s)
    case CrashStep => s.(exec := None)
    case SettleReviewStep(decisionId, now) => s.(rows := SettleReview(s.rows, decisionId, now).0)
  }

  function Run(s: State, p: Params, steps: seq<Step>): State {
    if steps == [] then s else Apply(Run(s, p, steps[..|steps| - 1]), p, steps[|steps| - 1])
  }

  lemma RunTake(s: State, p: Params, steps: seq<Step>, n: nat)
    requires n < |steps|
    ensures Run(s, p, steps[..n + 1]) == Apply(Run(s, p, steps[..n]), p, steps[n])
  {
    assert steps[..n + 1][..n] == steps[..n];
  }

  lemma {:induction false} RunConcat(s: State, p: Params, first: seq<Step>, more: seq<Step>)
    ensures Run(s, p, first + more) == Run(Run(s, p, first), p, more)
  {
    if more == [] {
      assert first + more == first;
    } else {
      hide Apply;
      RunConcat(s, p, first, more[..|more| - 1]);
      assert (first + more)[..|first + more| - 1] == first + more[..|more| - 1];
    }
  }

  lemma RunOne(s: State, p: Params, step: Step)
    ensures Run(s, p, [step]) == Apply(s, p, step)
  {
    assert [step][..0] == [];
    hide Apply;
  }
}
