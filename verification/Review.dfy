/** Resuming and settling a signed human decision (graph/review_worker.py, graph/invoice_runner.py):
the worker in place, and that it always finishes what a crash left behind. */
module Review {
  import opened Domain
  import opened Tables
  import opened Graph
  import opened Services
  import opened Decisions
  import opened Protocol
  import opened GraphInvariant
  import opened Invariant
  import opened Safety
  import opened Replay

  // ---------------------------------------------------------------- one uninterrupted resume

  predicate Reviewing(next: Option<Node>) {
    next == Some(HumanReview) || next == Some(Archive)
  }

  /** The event a resumed node commits. */
  function Transition(c: Checkpoint, review: ReviewDecision): Event
    requires Reviewing(c.next)
  {
    if c.next == Some(HumanReview) then ReviewRecorded(review) else EventOf(KArchive, c.w).value
  }

  datatype ResumeError = NoCheckpoint | NotWaiting | Refused(error: ReplayError) | InvalidState

  /** Executing one resumed node: its transition once, then its checkpoint. */
  function ResumeNode(c: Checkpoint, rows: Rows, review: ReviewDecision): (Checkpoint, Rows, Result<(), ResumeError>)
    requires Reviewing(c.next)
  {
    var node := c.next.value;
    var (after, r) := AppendOnce(rows, Kinds(node)[0], Transition(c, review));
    if r.Err? then (c, after, Err(Refused(r.error)))
    else
      var w := Finish(node, if node == HumanReview then c.w.(review := Some(review)) else c.w);
      if ValidProgress(w) then (Checkpoint(w, Successor(node, w)), after, Ok(()))
      else (c, after, Err(InvalidState))
  }

  function StepsLeft(next: Option<Node>): nat {
    match next
    case Some(HumanReview) => 2
    case Some(Archive) => 1
    case _ => 0
  }

  function ResumeNodes(c: Checkpoint, rows: Rows, review: ReviewDecision): (Checkpoint, Rows, Result<(), ResumeError>)
    decreases StepsLeft(c.next)
  {
    if !Reviewing(c.next) then (c, rows, Ok(()))
    else
      var (next, after, r) := ResumeNode(c, rows, review);
      if r.Err? then (next, after, r) else ResumeNodes(next, after, review)
  }

  function Resume(ckpt: Option<Checkpoint>, rows: Rows, review: ReviewDecision)
    : (Option<Checkpoint>, Rows, Result<(), ResumeError>)
  {
    match ckpt
    case None => (None, rows, Err(NoCheckpoint))
    case Some(c) =>
      match ResumePlanFor(c, review)
      case AlreadyDone => (ckpt, rows, Ok(()))
      case InvalidCheckpoint => (ckpt, rows, Err(NotWaiting))
      case Continue(_) =>
        var (next, after, r) := ResumeNodes(c, rows, review);
        (Some(next), after, r)
  }

  datatype ProcessError = Unsigned | NotPaused | ResumeFailed(error: ResumeError) | NotCompleted | Unsettled(reason: SettleError)

  /** One uninterrupted `process` of a decision while nobody else holds the run lock. */
  function ProcessDecision(ckpt: Option<Checkpoint>, rows: Rows, decisionId: nat, now: int)
    : (Option<Checkpoint>, Rows, Result<ExceptionStatus, ProcessError>)
  {
    match Signoff(rows, decisionId)
    case None => (ckpt, rows, Err(Unsigned))
    case Some(d) =>
      if rows.run.status !in {Paused, Completed} then (ckpt, rows, Err(NotPaused))
      else if rows.run.status == Completed then Settled(ckpt, rows, decisionId, now)
      else
        var (next, after, r) := Resume(ckpt, rows, ReviewOf(d));
        if r.Err? then (next, after, Err(ResumeFailed(r.error)))
        else if next == None || next.value.w.status != GraphCompleted || next.value.w.review != Some(ReviewOf(d)) then
          (next, after, Err(NotCompleted))
        else Settled(next, after, decisionId, now)
  }

  function Settled(ckpt: Option<Checkpoint>, rows: Rows, decisionId: nat, now: int)
    : (Option<Checkpoint>, Rows, Result<ExceptionStatus, ProcessError>)
  {
    var (settled, r) := SettleReview(rows, decisionId, now);
    (ckpt, settled, if r.Ok? then Ok(r.value) else Err(Unsettled(r.error)))
  }

  // ---------------------------------------------------------------- what may be settled, and how

  /** A manager's decision on this run's exception that supersedes an analyst's: two people, and both
  approve if the second does. */
  predicate SignedOff(rows: Rows, d: Decision) {
    && rows.exc.Some? && d in rows.decisions && d.exceptionId == rows.exc.value.id && d.actor == Manager
    && exists a <- rows.decisions :: d.supersedes == Some(a.id) && a.actor == Analyst && (d.action == Approve ==> a.action == Approve)
  }

  predicate Settles(rows: Rows, d: Decision) {
    && SignedOff(rows, d) && rows.run.status in {Paused, Completed}
    && Latest(rows.ledger, KReview) == Some(ReviewRecorded(ReviewDecision(d.action, d.actor, d.rationale, d.reasonCode)))
    && Latest(rows.ledger, KArchive).Some?
    && (rows.exc.value.status == InReview || Closes(rows.exc.value.status, d.action))
  }

  /** The exception closed as the action says and the run completed, at this time if it was not before. */
  predicate ClosedBy(rows: Rows, d: Decision, now: int, after: Rows, status: ExceptionStatus)
    requires rows.exc.Some?
  {
    && Closes(status, d.action) && after.run.status == Completed
    && after == rows.(exc := Some(ExceptionRow(rows.exc.value.id, status)), run := after.run)
    && after.run == if rows.run.status == Paused then RunRow(Completed, rows.run.startedAt, Some(now), rows.run.error) else rows.run
  }

  lemma SameDecision(decisions: seq<Decision>, d: Decision, e: Decision)
    requires UniqueKeys(decisions) && d in decisions && e in decisions && d.id == e.id
    ensures d == e
  {
    var i :| 0 <= i < |decisions| && decisions[i] == d;
    var j :| 0 <= j < |decisions| && decisions[j] == e;
    assert i == j;
  }

  /** The worker's query finds a decision exactly when it is signed off. */
  lemma SignoffMeans(rows: Rows, d: Decision)
    requires UniqueKeys(rows.decisions) && d in rows.decisions
    ensures Signoff(rows, d.id) == if SignedOff(rows, d) then Some(d) else None
  {
    hide UniqueKeys, ById;
    ByIdFinds(rows.decisions, d.id);
    SameDecision(rows.decisions, d, ById(rows.decisions, d.id).value);
    if d.supersedes.Some? {
      ByIdFinds(rows.decisions, d.supersedes.value);
      forall a | a in rows.decisions && a.id == d.supersedes.value ensures ById(rows.decisions, a.id) == Some(a) {
        SameDecision(rows.decisions, a, ById(rows.decisions, a.id).value);
      }
    }
  }

  /** The settlement accepts exactly a signed decision whose review and archive are committed and whose
  exception nobody closed otherwise; a refused settlement writes nothing. */
  lemma SettlementMeans(rows: Rows, d: Decision, now: int)
    requires UniqueKeys(rows.decisions) && d in rows.decisions
    ensures var (after, r) := SettleReview(rows, d.id, now);
            && (r.Ok? <==> Settles(rows, d)) && (r == Err(NoSignoff) <==> !SignedOff(rows, d))
            && (if r.Ok? then ClosedBy(rows, d, now, after, r.value) else after == rows)
  {
    hide UniqueKeys, Signoff, Latest;
    SignoffMeans(rows, d);
  }

  /** The resumed nodes touch neither the exception nor the decisions nor the run row. */
  lemma {:induction false} ResumeKeepsRows(c: Checkpoint, rows: Rows, review: ReviewDecision)
    ensures var after := ResumeNodes(c, rows, review).1;
            after == rows.(invoice := after.invoice, ledger := after.ledger)
    decreases StepsLeft(c.next)
  {
    if Reviewing(c.next) {
      hide Finish, ValidProgress, Latest, StatusMove;
      var (next, after, r) := ResumeNode(c, rows, review);
      if r.Ok? {
        ResumeKeepsRows(next, after, review);
      }
    }
  }

  lemma SameSigned(rows: Rows, after: Rows, d: Decision)
    requires after.exc == rows.exc && after.decisions == rows.decisions
    ensures SignedOff(after, d) == SignedOff(rows, d)
  {
  }

  /** Whatever the state, `process` answers with a status only for a signed decision, and then the
  exception has that status, which is the one its action asks for, and the run is completed. */
  lemma {:induction false} ProcessedAsSigned(ckpt: Option<Checkpoint>, rows: Rows, d: Decision, now: int)
    requires UniqueKeys(rows.decisions) && d in rows.decisions
    ensures var (_, after, r) := ProcessDecision(ckpt, rows, d.id, now);
            && (r == Err(Unsigned) <==> !SignedOff(rows, d))
            && (r.Ok? ==>
                  && SignedOff(rows, d) && rows.run.status in {Paused, Completed} && Closes(r.value, d.action)
                  && after.exc == Some(ExceptionRow(rows.exc.value.id, r.value)) && after.run.status == Completed
                  && Latest(after.ledger, KReview)
                     == Some(ReviewRecorded(ReviewDecision(d.action, d.actor, d.rationale, d.reasonCode)))
                  && Latest(after.ledger, KArchive).Some?)
  {
    hide UniqueKeys, Signoff, SignedOff, Latest, SettleReview, ResumeNodes, ResumePlanFor, Closes;
    SignoffMeans(rows, d);
    SettlementMeans(rows, d, now);
    if rows.run.status == Paused && ckpt.Some? && Signoff(rows, d.id).Some? {
      ResumeKeepsRows(ckpt.value, rows, ReviewOf(d));
      var after := Resume(ckpt, rows, ReviewOf(d)).1;
      SettlementMeans(after, d, now);
      SameSigned(rows, after, d);
    }
  }

  /** The invoice graph's stored checkpoint and the services its nodes call. */
  class DurableGraph {
    const tables: InvoiceTables
    const services: LiveInvoiceServices
    var checkpoint: Option<Checkpoint>

    constructor (tables: InvoiceTables, checkpoint: Option<Checkpoint>)
      ensures this.tables == tables && this.checkpoint == checkpoint && services.tables == tables
      ensures fresh(services)
    {
      this.tables := tables;
      this.services := new LiveInvoiceServices(tables);
      this.checkpoint := checkpoint;
    }

    /** `resume`: replay-safe entry, then the remaining nodes with a checkpoint after each. */
    method ResumeRun(review: ReviewDecision) returns (r: Result<(), ResumeError>)
      requires services.tables == tables
      modifies this`checkpoint, tables
      ensures (checkpoint, tables.View(), r) == Resume(old(checkpoint), old(tables.View()), review)
      ensures r == Err(NoCheckpoint) <==> old(checkpoint) == None
      ensures r == Err(NotWaiting) <==>
                && old(checkpoint).Some?
                && var (w, next) := (old(checkpoint).value.w, old(checkpoint).value.next);
                   && !(w.status == GraphCompleted && w.review == Some(review))
                   && !(w.status == AwaitingReview && next == Some(HumanReview))
                   && !(w.status == GraphRunning && w.review == Some(review) && next != None)
    {
      hide Finish, ValidProgress, AppendOnce, Starting;
      if checkpoint.None? {
        return Err(NoCheckpoint);
      }
      var c := checkpoint.value;
      if c.w.status == GraphCompleted && c.w.review == Some(review) {
        return Ok(());
      }
      if !(c.w.status == AwaitingReview && c.next == Some(HumanReview))
         && !(c.w.status == GraphRunning && c.w.review == Some(review) && c.next.Some?) {
        return Err(NotWaiting);
      }
      while checkpoint.Some? && Reviewing(checkpoint.value.next)
        invariant checkpoint.Some?
        invariant ResumeNodes(checkpoint.value, tables.View(), review) == ResumeNodes(c, old(tables.View()), review)
        decreases if checkpoint.Some? then StepsLeft(checkpoint.value.next) else 0
      {
        var at := checkpoint.value;
        var w := at.w;
        var done: Result<(), ReplayError>;
        if at.next == Some(HumanReview) {
          done := services.Review(review);
          w := w.(review := Some(review));
        } else {
          done := services.ArchiveInvoice(w);
        }
        if done.Err? {
          return Err(Refused(done.error));
        }
        w := Finish(at.next.value, w);
        if !ValidProgress(w) {
          return Err(InvalidState);
        }
        checkpoint := Some(Checkpoint(w, Successor(at.next.value, w)));
      }
      r := Ok(());
    }
  }

  class DecisionResumeWorker {
    const tables: InvoiceTables
    const graph: DurableGraph

    constructor (tables: InvoiceTables, graph: DurableGraph)
      ensures this.tables == tables && this.graph == graph
    {
      this.tables := tables;
      this.graph := graph;
    }

    method ProcessOne(decisionId: nat, now: int) returns (r: Result<ExceptionStatus, ProcessError>)
      requires graph.tables == tables && graph.services.tables == tables
      modifies tables, graph`checkpoint
      ensures (graph.checkpoint, tables.View(), r)
           == ProcessDecision(old(graph.checkpoint), old(tables.View()), decisionId, now)
    {
      var row := Signoff(Rows(tables.run, tables.invoice, tables.exc, tables.decisions, tables.ledger), decisionId);
      if row.None? {
        return Err(Unsigned);
      }
      var d := row.value;
      if tables.run.status !in {Paused, Completed} {
        return Err(NotPaused);
      }
      if tables.run.status == Paused {
        var resumed := graph.ResumeRun(ReviewOf(d));
        if resumed.Err? {
          return Err(ResumeFailed(resumed.error));
        }
        if graph.checkpoint.None? || graph.checkpoint.value.w.status != GraphCompleted
           || graph.checkpoint.value.w.review != Some(ReviewOf(d)) {
          return Err(NotCompleted);
        }
      }
      r := SettleDecision(decisionId, now);
    }

    /** The settlement transaction. */
    method SettleDecision(decisionId: nat, now: int) returns (r: Result<ExceptionStatus, ProcessError>)
      modifies tables
      ensures (graph.checkpoint, tables.View(), r) == Settled(graph.checkpoint, old(tables.View()), decisionId, now)
    {
      var row := Signoff(Rows(tables.run, tables.invoice, tables.exc, tables.decisions, tables.ledger), decisionId);
      if row.None? {
        return Err(Unsettled(NoSignoff));
      }
      var d := row.value;
      if tables.run.status !in {Paused, Completed} {
        return Err(Unsettled(RunChanged));
      }
      var services := new LiveInvoiceServices(tables);
      var review := services.ReadCache(KReview);
      var archived := services.ReadCache(KArchive);
      if review != Some(ReviewRecorded(ReviewOf(d))) || archived.None? {
        return Err(Unsettled(EvidenceIncomplete));
      }
      var final := if d.action == Escalate then Escalated else Resolved;
      if tables.exc.value.status !in {InReview, final} {
        return Err(Unsettled(ExceptionChanged));
      }
      tables.exc := Some(tables.exc.value.(status := final));
      if tables.run.status == Paused {
        tables.run := tables.run.(status := Completed, completedAt := Some(now));
      }
      r := Ok(final);
    }
  }
}
