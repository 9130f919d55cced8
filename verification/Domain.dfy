/** Values shared by the invoice tables: evidence payloads, rows and ledger events of one run.

A SHA-256 fingerprint is modelled by a constructor around the fingerprinted value, so two
fingerprints agree exactly when the values they were taken from agree. */
module Domain {

  datatype Option<+T> = None | Some(value: T)

  datatype Result<+T, +E> = Ok(value: T) | Err(error: E)

  // ---------------------------------------------------------------- what the schemas admit

  /** The content hash of a state: 64 lower-case hexadecimal digits. */
  predicate ValidHash(hash: string) {
    |hash| == 64 && forall c <- hash :: '0' <= c <= '9' || 'a' <= c <= 'f'
  }

  predicate ValidReasonCode(code: string) {
    2 <= |code| <= 64 && 'A' <= code[0] <= 'Z' && forall c <- code :: 'A' <= c <= 'Z' || '0' <= c <= '9' || c == '_'
  }

  predicate Blank(c: char) {
    c in " \t\n\r"
  }

  /** A rationale as the request schema leaves it: bounded, and stripped to something. */
  predicate ValidRationale(text: string) {
    1 <= |text| <= 2000 && !Blank(text[0]) && !Blank(text[|text| - 1])
  }

  // ---------------------------------------------------------------- evidence payloads

  datatype Extraction = Extraction(poNumber: Option<string>, fields: int)

  datatype ExtractionOutcome =
    | Extracted(extraction: Extraction, calls: int)
    | ExtractionEscalated(reason: int)

  datatype Snapshot = Snapshot(vendorIban: Option<string>, poStatus: int, poNumber: string, lines: int)

  datatype Validation = Validation(input: Digest, issues: int)

  datatype Match = Match(
    extraction: Digest, snapshot: Option<Digest>, poStatus: Option<int>, poNumber: Option<string>, checks: int)

  datatype Similarity = Similarity(extraction: Digest, nearDuplicate: bool, gateway: int)

  datatype TaxonomyRequest = TaxonomyRequest(
    extraction: Extraction, validation: Validation, match_: Match,
    vendorIban: Option<string>, nearDuplicate: bool, stalePo: bool)

  datatype Taxonomy = Taxonomy(
    input: Digest, extraction: Option<Digest>, validation: Option<Digest>, match_: Option<Digest>, codes: seq<int>)

  datatype PolicyRequest = PolicyRequest(
    asOf: int, extraction: Extraction, validation: Validation, match_: Match, taxonomy: Taxonomy,
    snapshot: Option<Snapshot>)

  datatype PolicyStatus = AutoApproveEligible | PolicyReview | PolicyBlock

  datatype ApprovalTier = NoTier | ApManager | ProcurementDirector | DualControl | UnknownTier

  datatype PolicyReason =
    | ExactDuplicate | CancelledPo | ClosedPo | StalePo | FuturePo | SpendCapExceeded | ApprovalRequired
    | ExceptionPresent | UnresolvedEvidence | ValidationFailed | MatchNotPassed | UnknownAmount
    | InvalidAmount | UnsupportedCurrency

  datatype Policy = Policy(
    input: Digest, status: PolicyStatus, tier: ApprovalTier, currency: Option<string>, amount: Option<real>,
    findings: seq<PolicyReason>)

  datatype GateConfig = GateConfig(
    weightField: real, weightMatch: real, weightPolicy: real, threshold: real, autoApprovalEnabled: bool)

  datatype Route = AutoRoute | ReviewRoute | RejectRoute

  datatype GateReason = ByPolicy | BelowThreshold | AutoDisabled | Eligible

  datatype Gate = Gate(
    route: Route, reason: GateReason, score: real, minimumField: real, matchDelta: real, policyTerm: real,
    policyStatus: PolicyStatus, extraction: Digest, match_: Digest, policy: Digest, config: GateConfig)

  datatype Triage = Triage(recommendation: int, codes: seq<int>, extractionEscalated: bool)

  /** Everything the workflow takes a fingerprint of. */
  datatype Evidence =
    | OfExtraction(e: Extraction)
    | OfValidation(v: Validation)
    | OfSnapshot(s: Snapshot)
    | OfMatch(m: Match)
    | OfTaxonomyRequest(t: TaxonomyRequest)
    | OfPolicyRequest(r: PolicyRequest)
    | OfPolicy(p: Policy)

  datatype Digest = Sha(content: Evidence)

  // ---------------------------------------------------------------- human decisions

  datatype Action = Approve | Return | Escalate

  datatype Actor = Analyst | Manager | AuditorRole

  datatype ReviewDecision = ReviewDecision(action: Action, actor: Actor, rationale: string, reasonCode: string)

  datatype Decision = Decision(
    id: nat, exceptionId: nat, key: string, action: Action, rationale: string, reasonCode: string,
    actor: Actor, supersedes: Option<nat>)

  // ---------------------------------------------------------------- rows

  datatype RunStatus = Queued | Running | Paused | Completed | Failed | Cancelled

  datatype RetryState = RetryState(
    attempts: nat, cycle: nat, errorType: Option<string>, retryable: Option<bool>, deadLettered: bool)

  datatype RunRow = RunRow(status: RunStatus, startedAt: Option<int>, completedAt: Option<int>, error: Option<RetryState>)

  datatype GraphStatus = GraphQueued | GraphRunning | AwaitingReview | GraphCompleted | GraphRejected

  datatype RunAttempt = RunAttempt(attempt: nat, cycle: nat)

  datatype InvoiceStatus = InQueue | NeedsReview | Approved | Returned

  datatype ExceptionStatus = Open | InReview | Resolved | Escalated

  datatype ExceptionRow = ExceptionRow(id: nat, status: ExceptionStatus)

  /** The rows one run shares between its processes; `decisions` is the whole decisions table. */
  datatype Rows = Rows(
    run: RunRow, invoice: InvoiceStatus, exc: Option<ExceptionRow>, decisions: seq<Decision>, ledger: seq<Event>)

  // ---------------------------------------------------------------- ledger events

  datatype Event =
    | IngestAccepted
    | DuplicateRejected
    | ExtractionRecorded(contentHash: string, outcome: ExtractionOutcome)
    | ValidationCompleted(validation: Validation)
    | MatchingCompleted(match_: Match)
    | SimilarityCompleted(similarity: Similarity)
    | ClassificationCompleted(taxonomy: Taxonomy)
    | PolicyCompleted(policy: Policy)
    | GateCompleted(gate: Gate)
    | AutoGranted(policyInput: Digest)
    | TriagePrepared(triage: Triage)
    | ReviewRecorded(review: ReviewDecision)
    | WorkflowArchived(route: Route)
    | WorkflowRejected
    | DecisionProposed(decisionId: nat, action: Action)
    | DecisionAccepted(decisionId: nat, action: Action)
    | DeadLettered(attempts: nat, cycle: nat, errorType: string, retryable: bool)
    | Redriven(key: string, actor: string, reason: string, fromCycle: nat, toCycle: nat)

  /** Workflow evidence by kind; extraction.completed and extraction.escalated count as one kind. */
  datatype Kind =
    | KExtraction | KValidation | KMatch | KSimilarity | KTaxonomy | KPolicy | KGate
    | KAuto | KTriage | KReview | KArchive | KReject

  function KindOf(e: Event): Option<Kind> {
    match e
    case ExtractionRecorded(_, _) => Some(KExtraction)
    case ValidationCompleted(_) => Some(KValidation)
    case MatchingCompleted(_) => Some(KMatch)
    case SimilarityCompleted(_) => Some(KSimilarity)
    case ClassificationCompleted(_) => Some(KTaxonomy)
    case PolicyCompleted(_) => Some(KPolicy)
    case GateCompleted(_) => Some(KGate)
    case AutoGranted(_) => Some(KAuto)
    case TriagePrepared(_) => Some(KTriage)
    case ReviewRecorded(_) => Some(KReview)
    case WorkflowArchived(_) => Some(KArchive)
    case WorkflowRejected => Some(KReject)
    case _ => None
  }

  /** The latest committed event of a kind, as `ORDER BY sequence DESC LIMIT 1` returns it. */
  function Latest(ledger: seq<Event>, k: Kind): Option<Event>
  {
    if ledger == [] then None
    else if KindOf(ledger[|ledger| - 1]) == Some(k) then Some(ledger[|ledger| - 1])
    else Latest(ledger[..|ledger| - 1], k)
  }

  function Count(ledger: seq<Event>, p: Event -> bool): nat {
    if ledger == [] then 0
    else Count(ledger[..|ledger| - 1], p) + if p(ledger[|ledger| - 1]) then 1 else 0
  }

  predicate IsDeadLetter(e: Event) {
    e.DeadLettered?
  }

  predicate IsRedrive(e: Event) {
    e.Redriven?
  }

  function LatestDeadLetter(ledger: seq<Event>): Option<Event> {
    if ledger == [] then None
    else if ledger[|ledger| - 1].DeadLettered? then Some(ledger[|ledger| - 1])
    else LatestDeadLetter(ledger[..|ledger| - 1])
  }

  lemma LatestDeadLetterAppend(ledger: seq<Event>, e: Event)
    ensures LatestDeadLetter(ledger + [e]) == if e.DeadLettered? then Some(e) else LatestDeadLetter(ledger)
  {
    assert (ledger + [e])[..|ledger|] == ledger;
  }

  lemma {:induction false} CountAppend(ledger: seq<Event>, e: Event, p: Event -> bool)
    ensures Count(ledger + [e], p) == Count(ledger, p) + if p(e) then 1 else 0
  {
    assert (ledger + [e])[..|ledger|] == ledger;
  }
}

/** The mutable rows of one run, as the transactions of the repository update them. */
module Tables {
  import opened Domain

  class InvoiceTables {
    var run: RunRow
    var invoice: InvoiceStatus
    var exc: Option<ExceptionRow>
    var decisions: seq<Decision>
    var ledger: seq<Event>

    ghost function View(): Rows
      reads this
    {
      Rows(run, invoice, exc, decisions, ledger)
    }

    /** Ingestion leaves a queued run, a queued invoice and one accepted event. */
    constructor ()
      ensures View() == Rows(RunRow(Queued, None, None, None), InQueue, None, [], [IngestAccepted])
    {
      run := RunRow(Queued, None, None, None);
      invoice := InQueue;
      exc := None;
      decisions := [];
      ledger := [IngestAccepted];
    }
  }
}
