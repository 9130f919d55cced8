/** Replay-safe workflow services over the ledger (graph/live_services.py), with the validators of
schemas/policy.py and schemas/gate.py that their evidence passes through. */
module Services {
  import opened Domain
  import opened Tables
  import opened Graph

  /** What a service reads outside the ledger: the ERP snapshot, the purchase-order age signal (its
  configuration may differ between executions) and the human decision of a resume. */
  datatype Env = Env(snapshot: Option<Snapshot>, stalePo: bool, decision: Option<ReviewDecision>)

  // ---------------------------------------------------------------- validators

  predicate PolicyCoherent(p: Policy) {
    && Distinct(p.findings)
    && p.status == (if ExactDuplicate in p.findings || CancelledPo in p.findings || SpendCapExceeded in p.findings
                    then PolicyBlock else if p.findings != [] then PolicyReview else AutoApproveEligible)
    && (p.status == AutoApproveEligible ==>
          p.tier == NoTier && p.amount.Some? && p.amount.value >= 0.0 && p.currency.Some?)
  }

  predicate Unit(x: real) {
    0.0 <= x <= 1.0
  }

  predicate GateConfigValid(c: GateConfig) {
    && Unit(c.weightField) && Unit(c.weightMatch) && Unit(c.weightPolicy) && Unit(c.threshold)
    && c.weightField + c.weightMatch + c.weightPolicy == 1.0
  }

  function Score(c: GateConfig, field: real, delta: real, term: real): real {
    Weighted(c.weightField, field) + Weighted(c.weightMatch, 1.0 - delta) + Weighted(c.weightPolicy, term)
  }

  function Weighted(weight: real, x: real): real {
    weight * x
  }

  function PolicyTerm(s: PolicyStatus): real {
    match s
    case AutoApproveEligible => 1.0
    case PolicyReview => 0.5
    case PolicyBlock => 0.0
  }

  function ExpectedReason(g: Gate): GateReason {
    if g.policyStatus != AutoApproveEligible then ByPolicy
    else if !g.config.autoApprovalEnabled then AutoDisabled
    else if g.score < g.config.threshold then BelowThreshold
    else Eligible
  }

  predicate GateCoherent(g: Gate) {
    && GateConfigValid(g.config)
    && Unit(g.score) && Unit(g.minimumField) && Unit(g.matchDelta) && Unit(g.policyTerm)
    && g.policyTerm == PolicyTerm(g.policyStatus)
    && g.score == Score(g.config, g.minimumField, g.matchDelta, g.policyTerm)
    && g.reason == ExpectedReason(g)
    && g.route == if g.reason == Eligible then AutoRoute else ReviewRoute
  }

  predicate PolicyRequestValid(r: PolicyRequest) {
    && r.validation.input == Sha(OfExtraction(r.extraction))
    && r.match_.extraction == Sha(OfExtraction(r.extraction))
    && r.taxonomy.extraction == Some(Sha(OfExtraction(r.extraction)))
    && r.taxonomy.validation == Some(Sha(OfValidation(r.validation)))
    && r.taxonomy.match_ == Some(Sha(OfMatch(r.match_)))
    && r.match_.snapshot == SnapshotSha(r.snapshot)
    && (r.snapshot.Some? ==>
          r.match_.poStatus == Some(r.snapshot.value.poStatus) && r.match_.poNumber == Some(r.snapshot.value.poNumber))
  }

  function SnapshotSha(s: Option<Snapshot>): Option<Digest> {
    if s.Some? then Some(Sha(OfSnapshot(s.value))) else None
  }

  // ---------------------------------------------------------------- requests built from the state

  predicate HasMatch(w: GraphState) {
    w.extraction.Some? && w.validation.Some? && w.match_.Some?
  }

  function TaxonomyRequestOf(w: GraphState, stalePo: bool): TaxonomyRequest
    requires HasMatch(w) && w.similarity.Some?
  {
    TaxonomyRequest(w.extraction.value, w.validation.value, w.match_.value,
                    if w.snapshot.Some? then w.snapshot.value.vendorIban else None,
                    w.similarity.value.nearDuplicate, stalePo)
  }

  function PolicyRequestOf(w: GraphState): PolicyRequest
    requires HasMatch(w) && w.taxonomy.Some?
  {
    PolicyRequest(w.asOf, w.extraction.value, w.validation.value, w.match_.value, w.taxonomy.value, w.snapshot)
  }

  /** The event a state's own evidence stands for; append-once events are rebuilt from the state. */
  function EventOf(k: Kind, w: GraphState): Option<Event> {
    match k
    case KExtraction => if w.outcome.Some? then Some(ExtractionRecorded(w.contentHash, w.outcome.value)) else None
    case KValidation => if w.validation.Some? then Some(ValidationCompleted(w.validation.value)) else None
    case KMatch => if w.match_.Some? then Some(MatchingCompleted(w.match_.value)) else None
    case KSimilarity => if w.similarity.Some? then Some(SimilarityCompleted(w.similarity.value)) else None
    case KTaxonomy => if w.taxonomy.Some? then Some(ClassificationCompleted(w.taxonomy.value)) else None
    case KPolicy => if w.policy.Some? then Some(PolicyCompleted(w.policy.value)) else None
    case KGate => if w.gate.Some? then Some(GateCompleted(w.gate.value)) else None
    case KAuto => if w.policy.Some? then Some(AutoGranted(w.policy.value.input)) else None
    case KTriage => if w.triage.Some? then Some(TriagePrepared(w.triage.value)) else None
    case KReview => if w.review.Some? then Some(ReviewRecorded(w.review.value)) else None
    case KArchive => Some(WorkflowArchived(if w.route.Some? then w.route.value else ReviewRoute))
    case KReject => Some(WorkflowRejected)
  }

  /** The inputs a service requires before it looks at the ledger; otherwise it raises. */
  predicate Ready(k: Kind, w: GraphState, env: Env) {
    match k
    case KExtraction => true
    case KValidation => w.extraction.Some?
    case KMatch => w.extraction.Some?
    case KSimilarity => HasMatch(w)
    case KTaxonomy =>
      && HasMatch(w) && w.similarity.Some?
      && w.validation.value.input == Sha(OfExtraction(w.extraction.value))
      && w.match_.value.extraction == Sha(OfExtraction(w.extraction.value))
    case KPolicy => HasMatch(w) && w.taxonomy.Some? && PolicyRequestValid(PolicyRequestOf(w))
    case KGate =>
      && HasMatch(w) && w.taxonomy.Some? && PolicyRequestValid(PolicyRequestOf(w))
      && w.policy.Some? && w.policy.value.input == Sha(OfPolicyRequest(PolicyRequestOf(w)))
    case KAuto => w.policy.Some?
    case KReview => env.decision.Some?
    case _ => true
  }

  /** Whether committed evidence is reconciled with the current inputs; otherwise the service raises. */
  predicate Accepts(k: Kind, e: Event, w: GraphState, env: Env)
    requires Ready(k, w, env)
  {
    match k
    case KExtraction => e.ExtractionRecorded? && e.contentHash == w.contentHash
    case KValidation => e.ValidationCompleted? && e.validation.input == Sha(OfExtraction(w.extraction.value))
    case KMatch =>
      && e.MatchingCompleted? && e.match_.extraction == Sha(OfExtraction(w.extraction.value))
      && e.match_.snapshot == SnapshotSha(env.snapshot)
    case KSimilarity => e.SimilarityCompleted? && e.similarity.extraction == Sha(OfExtraction(w.extraction.value))
    case KTaxonomy => e.ClassificationCompleted? && e.taxonomy.input == Sha(OfTaxonomyRequest(TaxonomyRequestOf(w, env.stalePo)))
    case KPolicy => e.PolicyCompleted? && e.policy.input == Sha(OfPolicyRequest(PolicyRequestOf(w)))
    case KGate =>
      && e.GateCompleted? && e.gate.extraction == Sha(OfExtraction(w.extraction.value))
      && e.gate.policy == Sha(OfPolicy(w.policy.value)) && e.gate.match_ == Sha(OfMatch(w.match_.value))
    case KTriage => e.TriagePrepared?
    case KAuto => Some(e) == EventOf(k, w)
    case KReview => e == ReviewRecorded(env.decision.value)
    case KArchive => Some(e) == EventOf(k, w)
    case KReject => Some(e) == EventOf(k, w)
  }

  /** The taxonomy fingerprints the request built from this state, for some age of the order. */
  predicate TaxonomyAnswers(input: Digest, w: GraphState) {
    && HasMatch(w) && w.similarity.Some? && input.content.OfTaxonomyRequest?
    && input.content.t == TaxonomyRequestOf(w, input.content.t.stalePo)
  }

  /** What fresh evidence, whatever the model or rule engine answers, says about its own inputs. */
  predicate Grounded(k: Kind, e: Event, w: GraphState) {
    KindOf(e) == Some(k) &&
    match k
    case KExtraction => e.contentHash == w.contentHash
    case KValidation => w.extraction.Some? && e.validation.input == Sha(OfExtraction(w.extraction.value))
    case KMatch =>
      && w.extraction.Some? && e.match_.extraction == Sha(OfExtraction(w.extraction.value))
      && (e.match_.snapshot.Some? ==>
            && e.match_.snapshot.value.content.OfSnapshot?
            && var s := e.match_.snapshot.value.content.s;
               e.match_.poStatus == Some(s.poStatus) && e.match_.poNumber == Some(s.poNumber))
    case KSimilarity => w.extraction.Some? && e.similarity.extraction == Sha(OfExtraction(w.extraction.value))
    case KTaxonomy =>
      && TaxonomyAnswers(e.taxonomy.input, w)
      && e.taxonomy.extraction == Some(Sha(OfExtraction(w.extraction.value)))
      && e.taxonomy.validation == Some(Sha(OfValidation(w.validation.value)))
      && e.taxonomy.match_ == Some(Sha(OfMatch(w.match_.value)))
    case KPolicy =>
      && HasMatch(w) && w.taxonomy.Some? && PolicyCoherent(e.policy)
      && e.policy.input == Sha(OfPolicyRequest(PolicyRequestOf(w)))
    case KGate =>
      && HasMatch(w) && w.policy.Some? && GateCoherent(e.gate) && e.gate.policyStatus == w.policy.value.status
      && e.gate.extraction == Sha(OfExtraction(w.extraction.value))
      && e.gate.policy == Sha(OfPolicy(w.policy.value)) && e.gate.match_ == Sha(OfMatch(w.match_.value))
    case KAuto => Some(e) == EventOf(k, w)
    case KTriage =>
      && e.triage.extractionEscalated == (w.extraction == None)
      && e.triage.codes == if w.taxonomy.Some? then w.taxonomy.value.codes else []
    case KReview => true
    case KArchive => Some(e) == EventOf(k, w)
    case KReject => true
  }

  /** Evidence a service may commit when the ledger holds none of that kind. */
  predicate Fresh(k: Kind, e: Event, w: GraphState, env: Env)
    requires Ready(k, w, env)
  {
    && Grounded(k, e, w)
    && match k
       case KMatch =>
         && e.match_.snapshot == SnapshotSha(env.snapshot)
       case KTaxonomy => e.taxonomy.input == Sha(OfTaxonomyRequest(TaxonomyRequestOf(w, env.stalePo)))
       case KReview => e == ReviewRecorded(env.decision.value)
       case _ => true
  }

  /** The working state once a service returned the evidence `e`. */
  function Absorb(e: Event, w: GraphState, env: Env): GraphState {
    match e
    case ExtractionRecorded(_, o) =>
      w.(outcome := Some(o), extraction := if o.Extracted? then Some(o.extraction) else None)
    case ValidationCompleted(v) => w.(validation := Some(v))
    case MatchingCompleted(m) => w.(match_ := Some(m), snapshot := env.snapshot)
    case SimilarityCompleted(s) => w.(similarity := Some(s))
    case ClassificationCompleted(t) => w.(taxonomy := Some(t))
    case PolicyCompleted(p) => w.(policy := Some(p))
    case GateCompleted(g) => w.(gate := Some(g))
    case TriagePrepared(t) => w.(triage := Some(t))
    case ReviewRecorded(d) => w.(review := Some(d))
    case _ => w
  }

  /** Evidence committed for unchanged inputs is always accepted again. */
  lemma FreshIsAccepted(k: Kind, e: Event, w: GraphState, env: Env)
    requires Ready(k, w, env) && Fresh(k, e, w, env)
    ensures Accepts(k, e, w, env)
  {
  }

  /** The inputs a service's committed answer was made from, and is reconciled with, are the same. */
  predicate SameInputs(k: Kind, a: GraphState, before: Env, b: GraphState, now: Env) {
    match k
    case KExtraction => a.contentHash == b.contentHash
    case KValidation => a.extraction == b.extraction
    case KMatch => a.extraction == b.extraction && before.snapshot == now.snapshot
    case KSimilarity => a.extraction == b.extraction
    case KTaxonomy =>
      && a.extraction == b.extraction && a.validation == b.validation && a.match_ == b.match_ && before.stalePo == now.stalePo
      && VendorIban(a.snapshot) == VendorIban(b.snapshot)
      && a.similarity.Some? && b.similarity.Some? && a.similarity.value.nearDuplicate == b.similarity.value.nearDuplicate
    case KPolicy =>
      && a.asOf == b.asOf && a.extraction == b.extraction && a.validation == b.validation && a.match_ == b.match_
      && a.taxonomy == b.taxonomy && a.snapshot == b.snapshot
    case KGate => a.extraction == b.extraction && a.match_ == b.match_ && a.policy == b.policy
    case KAuto => a.policy.Some? && b.policy.Some? && a.policy.value.input == b.policy.value.input
    case KReview => before.decision == now.decision
    case KArchive => a.route == b.route || {a.route, b.route} == {None, Some(ReviewRoute)}
    case _ => true
  }

  function VendorIban(snapshot: Option<Snapshot>): Option<string> {
    match snapshot
    case None => None
    case Some(s) => s.vendorIban
  }

  /** Evidence committed for some inputs is accepted exactly for those inputs: any change of what its service
  reads makes a re-execution raise. */
  lemma AcceptedForSameInputs(k: Kind, e: Event, a: GraphState, before: Env, b: GraphState, now: Env)
    requires Ready(k, a, before) && Fresh(k, e, a, before) && Ready(k, b, now)
    ensures Accepts(k, e, b, now) <==> SameInputs(k, a, before, b, now)
  {
    hide PolicyCoherent, GateCoherent, PolicyRequestValid;
  }

  /** A service returns the committed payload and nothing else: no second answer of the model can
  show up in the state. */
  lemma AbsorbReturnsEvidence(k: Kind, e: Event, w: GraphState, env: Env)
    requires Ready(k, w, env) && KindOf(e) == Some(k) && Accepts(k, e, w, env)
    ensures EventOf(k, Absorb(e, w, env)) == Some(e)
  {
  }

  /** Automatic routing means an eligible policy, auto-approval switched on and a score at or above
  the threshold, and an eligible policy has no finding, no approver and a known valid amount. */
  lemma AutoRouteMeans(g: Gate, p: Policy)
    requires GateCoherent(g) && PolicyCoherent(p) && g.policyStatus == p.status
    ensures g.route == AutoRoute <==>
              p.status == AutoApproveEligible && g.config.autoApprovalEnabled && g.score >= g.config.threshold
    ensures g.route == AutoRoute ==>
              p.findings == [] && p.tier == NoTier && p.currency.Some? && p.amount.Some? && p.amount.value >= 0.0
    ensures g.route != RejectRoute
    ensures g.reason == ByPolicy <==> p.findings != []
    ensures g.reason == AutoDisabled <==> p.findings == [] && !g.config.autoApprovalEnabled
    ensures g.reason == BelowThreshold <==> p.findings == [] && g.config.autoApprovalEnabled && g.score < g.config.threshold
    ensures p.status == PolicyBlock <==> exists f <- p.findings :: f in {ExactDuplicate, CancelledPo, SpendCapExceeded}
    ensures p.status == AutoApproveEligible <==> p.findings == []
  {
  }

  /** The score is the weighted sum of the least certain field, the match without its gap, and a policy term
  that is one for an eligible policy, one half for a review and nothing for a block. */
  lemma ScoreMeans(g: Gate, p: Policy)
    requires GateCoherent(g) && g.policyStatus == p.status
    ensures g.score == g.minimumField * g.config.weightField + g.config.weightMatch - g.matchDelta * g.config.weightMatch
                       + (if p.status == AutoApproveEligible then g.config.weightPolicy
                          else if p.status == PolicyReview then g.config.weightPolicy / 2.0 else 0.0)
  {
    Distribute(g.config.weightMatch, g.matchDelta);
  }

  lemma Distribute(weight: real, delta: real)
    ensures weight * (1.0 - delta) == weight - delta * weight
  {
  }

  /** With full confidence, no gap and an eligible policy the score is exactly one; each signal can
  only lower it. */
  lemma ScoreBounds(c: GateConfig, field: real, delta: real, term: real)
    requires GateConfigValid(c) && Unit(field) && Unit(delta) && Unit(term)
    ensures Unit(Score(c, field, delta, term))
    ensures Score(c, 1.0, 0.0, 1.0) == 1.0
  {
    Product(c.weightField, field);
    Product(c.weightMatch, 1.0 - delta);
    Product(c.weightPolicy, term);
    Product(c.weightField, 1.0);
    Product(c.weightMatch, 1.0 - 0.0);
    Product(c.weightPolicy, 1.0);
  }

  lemma Product(weight: real, x: real)
    requires weight >= 0.0 && Unit(x)
    ensures 0.0 <= Weighted(weight, x) <= weight
    ensures x == 1.0 ==> Weighted(weight, x) == weight
  {
  }

  // ---------------------------------------------------------------- transactions

  function StatusAfter(a: Action): InvoiceStatus {
    match a
    case Approve => Approved
    case Return => Returned
    case Escalate => NeedsReview
  }

  /** The invoice status a committed event moves to, if it moves it. */
  function StatusMove(e: Event): Option<InvoiceStatus> {
    match e
    case AutoGranted(_) => Some(Approved)
    case TriagePrepared(_) => Some(NeedsReview)
    case ReviewRecorded(d) => Some(StatusAfter(d.action))
    case _ => None
  }

  function CommitEvent(rows: Rows, e: Event): Rows {
    rows.(ledger := rows.ledger + [e],
          invoice := if StatusMove(e).Some? then StatusMove(e).value else rows.invoice)
  }

  datatype ReplayError = EvidenceDiffers | ExceptionKeyTaken

  /** `append_once`: an equal committed payload is returned, a different one raises. */
  function AppendOnce(rows: Rows, k: Kind, e: Event): (Rows, Result<(), ReplayError>) {
    match Latest(rows.ledger, k)
    case Some(committed) => (rows, if committed == e then Ok(()) else Err(EvidenceDiffers))
    case None => (CommitEvent(rows, e), Ok(()))
  }

  /** The exception row `triage` makes sure of; its key is new to the decisions table. */
  function EnsureException(rows: Rows, newId: nat): Option<Rows> {
    if rows.exc.Some? then Some(rows)
    else if exists d <- rows.decisions :: d.exceptionId == newId then None
    else Some(rows.(exc := Some(ExceptionRow(newId, Open))))
  }

  /** `triage`: a committed payload wins over the prepared one; the exception exists afterwards. */
  function PrepareTriage(rows: Rows, t: Triage, newId: nat): (Rows, Result<Triage, ReplayError>) {
    match EnsureException(rows, newId)
    case None => (rows, Err(ExceptionKeyTaken))
    case Some(ensured) =>
      match Latest(rows.ledger, KTriage)
      case Some(TriagePrepared(cached)) => (ensured, Ok(cached))
      case _ => (CommitEvent(ensured, TriagePrepared(t)), Ok(t))
  }

  lemma {:induction false} LatestKind(ledger: seq<Event>, k: Kind)
    ensures Latest(ledger, k).Some? ==> KindOf(Latest(ledger, k).value) == Some(k) && Latest(ledger, k).value in ledger
    ensures Latest(ledger, k) == None <==> forall e <- ledger :: KindOf(e) != Some(k)
  {
    if ledger != [] {
      assert ledger == ledger[..|ledger| - 1] + [ledger[|ledger| - 1]];
      LatestKind(ledger[..|ledger| - 1], k);
    }
  }

  class LiveInvoiceServices {
    const tables: InvoiceTables

    constructor (tables: InvoiceTables)
      ensures this.tables == tables
    {
      this.tables := tables;
    }

    /** The read of the event cache, newest event first. */
    method ReadCache(k: Kind) returns (cached: Option<Event>)
      ensures cached == Latest(tables.ledger, k)
    {
      cached := None;
      var n := |tables.ledger|;
      assert tables.ledger[..n] == tables.ledger;
      while n > 0
        invariant 0 <= n <= |tables.ledger|
        invariant cached == None && Latest(tables.ledger, k) == Latest(tables.ledger[..n], k)
      {
        assert tables.ledger[..n][..n - 1] == tables.ledger[..n - 1];
        if KindOf(tables.ledger[n - 1]) == Some(k) {
          return Some(tables.ledger[n - 1]);
        }
        n := n - 1;
      }
    }

    /** extract, validate, match, policy's three steps and gate: replay the committed answer, or
    commit the fresh answer. */
    method ReplayOrRecord(k: Kind, answer: Event, w: GraphState, env: Env) returns (r: Result<Event, ReplayError>)
      requires Ready(k, w, env) && Fresh(k, answer, w, env)
      requires k !in {KAuto, KTriage, KReview, KArchive, KReject}
      modifies tables
      ensures match Latest(old(tables.ledger), k)
              case None => r == Ok(answer) && tables.View() == CommitEvent(old(tables.View()), answer)
              case Some(e) =>
                && tables.View() == old(tables.View())
                && r == if Accepts(k, e, w, env) then Ok(e) else Err(EvidenceDiffers)
      ensures r.Ok? ==> EventOf(k, Absorb(r.value, w, env)) == Some(r.value)
    {
      var cached := ReadCache(k);
      if cached.Some? {
        LatestKind(tables.ledger, k);
        if !Accepts(k, cached.value, w, env) {
          return Err(EvidenceDiffers);
        }
        AbsorbReturnsEvidence(k, cached.value, w, env);
        return Ok(cached.value);
      }
      FreshIsAccepted(k, answer, w, env);
      AbsorbReturnsEvidence(k, answer, w, env);
      tables.ledger := tables.ledger + [answer];
      r := Ok(answer);
    }

    method AppendTransition(k: Kind, e: Event, invoiceStatus: Option<InvoiceStatus>) returns (r: Result<(), ReplayError>)
      requires KindOf(e) == Some(k) && invoiceStatus == StatusMove(e)
      modifies tables
      ensures (tables.View(), r) == AppendOnce(old(tables.View()), k, e)
      ensures match Latest(old(tables.ledger), k)
              case Some(committed) =>
                tables.View() == old(tables.View()) && r == if committed == e then Ok(()) else Err(EvidenceDiffers)
              case None =>
                && r == Ok(()) && tables.ledger == old(tables.ledger) + [e]
                && tables.invoice == (if invoiceStatus == None then old(tables.invoice) else invoiceStatus.value)
    {
      var committed := ReadCache(k);
      if committed.Some? {
        if committed.value != e {
          return Err(EvidenceDiffers);
        }
        return Ok(());
      }
      if invoiceStatus.Some? {
        tables.invoice := invoiceStatus.value;
      }
      tables.ledger := tables.ledger + [e];
      r := Ok(());
    }

    method TriageException(t: Triage, newId: nat) returns (r: Result<Triage, ReplayError>)
      modifies tables
      ensures (tables.View(), r) == PrepareTriage(old(tables.View()), t, newId)
      ensures r.Err? <==> old(tables.exc) == None && exists d <- old(tables.decisions) :: d.exceptionId == newId
      ensures r.Err? ==> tables.View() == old(tables.View())
      ensures r.Ok? ==>
                && tables.exc == Some(if old(tables.exc) == None then ExceptionRow(newId, Open) else old(tables.exc).value)
                && match Latest(old(tables.ledger), KTriage)
                   case Some(e) => e == TriagePrepared(r.value) && tables.ledger == old(tables.ledger) && tables.invoice == old(tables.invoice)
                   case None => r.value == t && tables.ledger == old(tables.ledger) + [TriagePrepared(t)] && tables.invoice == NeedsReview
    {
      var payload := t;
      var row := ReadCache(KTriage);
      LatestKind(tables.ledger, KTriage);
      if row.Some? {
        payload := row.value.triage;
      }
      if tables.exc.None? {
        if exists d <- tables.decisions :: d.exceptionId == newId {
          return Err(ExceptionKeyTaken);
        }
        tables.exc := Some(ExceptionRow(newId, Open));
      }
      if row.None? {
        tables.invoice := NeedsReview;
        tables.ledger := tables.ledger + [TriagePrepared(payload)];
      }
      r := Ok(payload);
    }

    method AutoApproveInvoice(w: GraphState) returns (r: Result<(), ReplayError>)
      requires w.policy.Some?
      modifies tables
      ensures (tables.View(), r) == AppendOnce(old(tables.View()), KAuto, AutoGranted(w.policy.value.input))
    {
      r := AppendTransition(KAuto, AutoGranted(w.policy.value.input), Some(Approved));
    }

    method Review(d: ReviewDecision) returns (r: Result<(), ReplayError>)
      modifies tables
      ensures (tables.View(), r) == AppendOnce(old(tables.View()), KReview, ReviewRecorded(d))
    {
      var status := match d.action case Approve => Approved case Return => Returned case Escalate => NeedsReview;
      r := AppendTransition(KReview, ReviewRecorded(d), Some(status));
    }

    method ArchiveInvoice(w: GraphState) returns (r: Result<(), ReplayError>)
      modifies tables
      ensures var route := if w.route == None then ReviewRoute else w.route.value;
              (tables.View(), r) == AppendOnce(old(tables.View()), KArchive, WorkflowArchived(route))
    {
      r := AppendTransition(KArchive, WorkflowArchived(if w.route.Some? then w.route.value else ReviewRoute), None);
    }

    method RejectInvoice() returns (r: Result<(), ReplayError>)
      modifies tables
      ensures (tables.View(), r) == AppendOnce(old(tables.View()), KReject, WorkflowRejected)
    {
      r := AppendTransition(KReject, WorkflowRejected, None);
    }
  }
}
