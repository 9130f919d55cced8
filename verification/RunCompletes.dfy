/** From every point where an execution of the graph may have stopped, running it once more without
interruption brings it to its end: waiting for review, completed or rejected. */
module RunCompletes {
  import opened Domain
  import opened Graph
  import opened Services
  import Worker
  import opened Decisions
  import opened Protocol
  import opened GraphInvariant
  import opened Invariant
  import opened Safety
  import opened Replay

  /** What the world outside gives one uninterrupted run: the ERP snapshot, the order-age signal, the answers
  of models and rules, and an identifier for the exception. */
  datatype Outside = Outside(snapshot: Option<Snapshot>, stalePo: bool, answer: (Kind, GraphState, Env) -> Event, newId: nat)

  /** Every service that is asked answers what its schema and its own inputs allow. */
  ghost predicate Answering(o: Outside) {
    forall k, w, env {:trigger o.answer(k, w, env)} | Ready(k, w, env) :: Fresh(k, o.answer(k, w, env), w, env)
  }

  /** Such answers exist: the least a model, a rule engine or a person may say. */
  function Modest(k: Kind, w: GraphState, env: Env): Event {
    match k
    case KExtraction => ExtractionRecorded(w.contentHash, ExtractionEscalated(0))
    case KValidation => if w.extraction.Some? then ValidationCompleted(Validation(Sha(OfExtraction(w.extraction.value)), 0)) else IngestAccepted
    case KMatch => if w.extraction.Some? then MatchingCompleted(ModestMatch(w.extraction.value, env.snapshot)) else IngestAccepted
    case KSimilarity =>
      if w.extraction.Some? then SimilarityCompleted(Similarity(Sha(OfExtraction(w.extraction.value)), false, 0)) else IngestAccepted
    case KTaxonomy => if HasMatch(w) && w.similarity.Some? then ClassificationCompleted(ModestTaxonomy(w, env)) else IngestAccepted
    case KPolicy =>
      if HasMatch(w) && w.taxonomy.Some?
      then PolicyCompleted(Policy(Sha(OfPolicyRequest(PolicyRequestOf(w))), PolicyReview, UnknownTier, None, None, [UnknownAmount]))
      else IngestAccepted
    case KGate =>
      if w.extraction.Some? && w.match_.Some? && w.policy.Some?
      then GateCompleted(ModestGate(w.extraction.value, w.match_.value, w.policy.value)) else IngestAccepted
    case KAuto => if w.policy.Some? then AutoGranted(w.policy.value.input) else IngestAccepted
    case KTriage =>
      TriagePrepared(Triage(0, if w.taxonomy.Some? then w.taxonomy.value.codes else [], w.extraction == None))
    case KReview => if env.decision.Some? then ReviewRecorded(env.decision.value) else IngestAccepted
    case KArchive => WorkflowArchived(if w.route.Some? then w.route.value else ReviewRoute)
    case KReject => WorkflowRejected
  }

  function ModestMatch(x: Extraction, snapshot: Option<Snapshot>): Match {
    Match(Sha(OfExtraction(x)), SnapshotSha(snapshot), if snapshot.Some? then Some(snapshot.value.poStatus) else None,
          if snapshot.Some? then Some(snapshot.value.poNumber) else None, 0)
  }

  function ModestTaxonomy(w: GraphState, env: Env): Taxonomy
    requires HasMatch(w) && w.similarity.Some?
  {
    Taxonomy(Sha(OfTaxonomyRequest(TaxonomyRequestOf(w, env.stalePo))), Some(Sha(OfExtraction(w.extraction.value))),
             Some(Sha(OfValidation(w.validation.value))), Some(Sha(OfMatch(w.match_.value))), [])
  }

  const CAUTIOUS := GateConfig(0.0, 1.0, 0.0, 1.0, false)

  /** Every gate of this configuration asks for a review. */
  function ModestGate(x: Extraction, m: Match, q: Policy): Gate {
    Gate(ReviewRoute, if q.status != AutoApproveEligible then ByPolicy else AutoDisabled, 1.0, 1.0, 0.0,
         PolicyTerm(q.status), q.status, Sha(OfExtraction(x)), Sha(OfMatch(m)), Sha(OfPolicy(q)), CAUTIOUS)
  }

  lemma NoWeight(x: real)
    ensures Weighted(0.0, x) == 0.0
  {
  }

  lemma CautiousScore(term: real)
    ensures Score(CAUTIOUS, 1.0, 0.0, term) == 1.0
  {
    NoWeight(1.0);
    NoWeight(term);
    assert Weighted(1.0, 1.0 - 0.0) == 1.0;
    hide Weighted;
  }

  lemma CautiousConfig()
    ensures GateConfigValid(CAUTIOUS)
  {
  }

  lemma ModestGateCoherent(x: Extraction, m: Match, q: Policy)
    ensures GateCoherent(ModestGate(x, m, q))
  {
    hide Score, GateConfigValid, Weighted;
    CautiousConfig();
    CautiousScore(PolicyTerm(q.status));
  }

  lemma ModestPolicyCoherent(input: Digest)
    ensures PolicyCoherent(Policy(input, PolicyReview, UnknownTier, None, None, [UnknownAmount]))
  {
  }

  lemma ModestTaxonomyFresh(w: GraphState, env: Env)
    requires Ready(KTaxonomy, w, env)
    ensures Fresh(KTaxonomy, Modest(KTaxonomy, w, env), w, env)
  {
    hide GateCoherent, PolicyCoherent, PolicyRequestValid;
  }

  lemma ModestPolicyFresh(w: GraphState, env: Env)
    requires Ready(KPolicy, w, env)
    ensures Fresh(KPolicy, Modest(KPolicy, w, env), w, env)
  {
    hide GateCoherent, PolicyCoherent, PolicyRequestValid;
    ModestPolicyCoherent(Sha(OfPolicyRequest(PolicyRequestOf(w))));
  }

  lemma ModestGateFresh(w: GraphState, env: Env)
    requires Ready(KGate, w, env)
    ensures Fresh(KGate, Modest(KGate, w, env), w, env)
  {
    hide GateCoherent, PolicyCoherent, PolicyRequestValid, PolicyRequestOf;
    ModestGateCoherent(w.extraction.value, w.match_.value, w.policy.value);
  }

  lemma ModestIsFresh(k: Kind, w: GraphState, env: Env)
    requires Ready(k, w, env)
    ensures Fresh(k, Modest(k, w, env), w, env)
  {
    match k
    case KTaxonomy => hide Ready, Fresh, Modest; ModestTaxonomyFresh(w, env);
    case KPolicy => hide Ready, Fresh, Modest; ModestPolicyFresh(w, env);
    case KGate => hide Ready, Fresh, Modest; ModestGateFresh(w, env);
    case _ => hide GateCoherent, PolicyCoherent, PolicyRequestValid;
  }

  lemma {:induction false} SomebodyAnswers(snapshot: Option<Snapshot>, stalePo: bool, newId: nat)
    ensures Answering(Outside(snapshot, stalePo, Modest, newId))
  {
    forall k, w, env | Ready(k, w, env) ensures Fresh(k, Modest(k, w, env), w, env) {
      ModestIsFresh(k, w, env);
    }
    hide Ready, Fresh, Modest;
  }

  // ---------------------------------------------------------------- one uninterrupted run

  /** One service: read, and write what is not committed yet. */
  function Serve(s: State, p: Params, o: Outside): State {
    var looked := Apply(s, p, LookStep(o.snapshot, o.stalePo));
    match looked.exec
    case Some(x) => if x.looked && |x.got| < |Kinds(x.node)| then Apply(looked, p, Answer(x, o)) else looked
    case None => looked
  }

  function Answer(x: Exec, o: Outside): Step
    requires |x.got| < |Kinds(x.node)|
  {
    CommitStep(o.answer(NextKind(x), Work(x), x.env), o.newId)
  }

  function ServeSteps(s: State, p: Params, o: Outside): seq<Step> {
    var look := LookStep(o.snapshot, o.stalePo);
    match Apply(s, p, look).exec
    case Some(x) => if x.looked && |x.got| < |Kinds(x.node)| then [look, Answer(x, o)] else [look]
    case None => [look]
  }

  predicate Serving(s: State) {
    s.exec.Some? && |s.exec.value.got| < |Kinds(s.exec.value.node)|
  }

  /** The next service of the node, or the checkpoint after the last one. */
  function Advance(s: State, p: Params, o: Outside): State {
    if Serving(s) then Serve(s, p, o) else Apply(s, p, CheckpointStep)
  }

  function AdvanceSteps(s: State, p: Params, o: Outside): seq<Step> {
    if Serving(s) then ServeSteps(s, p, o) else [CheckpointStep]
  }

  function NodesAhead(node: Node): nat {
    match node
    case Ingest => 9
    case Extract => 8
    case Validate => 7
    case Match3Way => 6
    case PolicyNode => 5
    case GateNode => 4
    case AutoApprove => 3
    case ExceptionTriage => 3
    case HumanReview => 2
    case Archive => 1
    case Reject => 1
  }

  /** Services and checkpoints still to come. */
  function Ahead(s: State): nat {
    match s.exec
    case None => 0
    case Some(x) => 4 * NodesAhead(x.node) + if |x.got| < |Kinds(x.node)| then |Kinds(x.node)| - |x.got| else 0
  }

  /** The run until it stops. */
  function Drive(s: State, p: Params, o: Outside): State
    decreases Ahead(s)
  {
    var t := Advance(s, p, o);
    if s.exec == None || Ahead(t) >= Ahead(s) then s else Drive(t, p, o)
  }

  function DriveSteps(s: State, p: Params, o: Outside): seq<Step>
    decreases Ahead(s)
  {
    var t := Advance(s, p, o);
    if s.exec == None || Ahead(t) >= Ahead(s) then [] else AdvanceSteps(s, p, o) + DriveSteps(t, p, o)
  }

  // ---------------------------------------------------------------- the inputs from outside are unchanged

  /** What `match` sees of the ERP: nothing without an order number. */
  function Shown(ledger: seq<Event>, snapshot: Option<Snapshot>): Option<Snapshot> {
    var e := CommittedExtraction(ledger);
    if e.Some? && e.value.poNumber.Some? then snapshot else None
  }

  /** The committed match and taxonomy were made from this snapshot and this order-age signal. */
  predicate Unchanged(ledger: seq<Event>, o: Outside) {
    && (match Latest(ledger, KMatch)
        case Some(MatchingCompleted(m)) => m.snapshot == SnapshotSha(Shown(ledger, o.snapshot))
        case _ => true)
    && (match Latest(ledger, KTaxonomy)
        case Some(ClassificationCompleted(t)) =>
          t.input.content.OfTaxonomyRequest? ==> t.input.content.t.stalePo == o.stalePo
        case _ => true)
  }

  predicate Usable(rows: Rows, newId: nat) {
    rows.exc == None ==> forall d <- rows.decisions :: d.exceptionId != newId
  }

  /** An execution of the runner between two services. */
  ghost predicate Underway(s: State, p: Params, o: Outside) {
    && Inv(s, p) && s.exec.Some? && !s.exec.value.looked && s.exec.value.env.decision == None
    && Unchanged(s.rows.ledger, o) && Usable(s.rows, o.newId)
  }

  /** What a service leaves alone. */
  predicate Served(s: State, t: State) {
    && t == s.(rows := t.rows, exec := t.exec) && t.rows.run == s.rows.run && t.rows.decisions == s.rows.decisions
    && s.exec.Some? && t.exec.Some? && s.exec.value.node == t.exec.value.node && |t.exec.value.got| == |s.exec.value.got| + 1
    && !t.exec.value.looked && t.exec.value.env.decision == s.exec.value.env.decision
    && (s.rows.exc.Some? ==> t.rows.exc.Some?)
  }

  // ---------------------------------------------------------------- one service

  lemma {:induction false} ReadyToServe(s: State, p: Params, o: Outside)
    requires Underway(s, p, o) && Serving(s)
    ensures var x := s.exec.value;
            var env := Observe(x, NextKind(x), o.snapshot, o.stalePo);
            && Work(x.(env := env)) == Work(x) && env.decision == None
            && Ready(NextKind(x), Work(x), env)
  {
    hide CheckpointInv, ExecInv, RowsInv, TableInv, Evidences, Kinds, Work, Ready, Observe, Unchanged, Usable, AbsorbAll;
    var c, x, events := s.ckpt.value, s.exec.value, Evidences(s.rows.ledger);
    var env := Observe(x, NextKind(x), o.snapshot, o.stalePo);
    ObservedWork(c, x, events, o.snapshot, o.stalePo);
    ServicesReady(c, x, events, env);
    WorkEnv(x, env);
  }

  /** The match node works on the committed extraction. */
  lemma {:induction false} BaseIsCommitted(s: State, p: Params, o: Outside)
    requires Underway(s, p, o) && s.exec.value.node == Match3Way
    ensures s.exec.value.base.extraction == CommittedExtraction(s.rows.ledger)
  {
    hide RowsInv, TableInv, Evidences, Latest, Unchanged, Usable, Executing, Chained, SnapshotMatches, TailGrounded;
    var c, events := s.ckpt.value, Evidences(s.rows.ledger);
    assert KExtraction in KindsDone(c.w, c.next) by { assert KindsDone(c.w, Some(Match3Way))[0] == KExtraction; }
    hide KindsDone, KindsThrough, Positioned, Spells, Grounded;
    DoneBacked(c, events, KExtraction);
    LatestEvidence(s.rows.ledger, KExtraction);
  }

  lemma {:induction false} ShownIsObserved(s: State, p: Params, o: Outside)
    requires Underway(s, p, o) && Serving(s)
    ensures var x := s.exec.value;
            var env := Observe(x, NextKind(x), o.snapshot, o.stalePo);
            && (NextKind(x) == KMatch ==> env.snapshot == Shown(s.rows.ledger, o.snapshot))
            && (NextKind(x) == KTaxonomy ==> env.stalePo == o.stalePo)
  {
    var x := s.exec.value;
    MatchNode(x.node, |x.got|);
    if NextKind(x) == KMatch {
      BaseIsCommitted(s, p, o);
    }
    hide Inv, Unchanged, Usable, Kinds, CommittedExtraction;
  }

  lemma MatchNode(node: Node, i: nat)
    requires i < |Kinds(node)|
    ensures Kinds(node)[i] == KMatch <==> node == Match3Way
  {
  }

  /** Committed evidence is returned, because nothing outside changed. */
  lemma {:induction false} CommittedIsReturned(s: State, p: Params, o: Outside)
    requires Underway(s, p, o) && Serving(s)
    requires NextKind(s.exec.value) != KTriage && Latest(s.rows.ledger, NextKind(s.exec.value)).Some?
    ensures var x := s.exec.value;
            var e := Latest(s.rows.ledger, NextKind(x)).value;
            Serve(s, p, o) == s.(exec := Some(x.(env := Observe(x, NextKind(x), o.snapshot, o.stalePo), got := x.got + [e])))
  {
    hide Inv, Kinds, Work, Latest, Observe, Usable, ReadEvidence, Shown;
    var x := s.exec.value;
    LookDecides(s, p, o.snapshot, o.stalePo);
    ShownIsObserved(s, p, o);
    LatestKind(s.rows.ledger, NextKind(x));
    KindsAgree(Latest(s.rows.ledger, NextKind(x)).value, NextKind(x));
    hide KindOf;
  }

  lemma KindsAgree(e: Event, k: Kind)
    requires KindOf(e) == Some(k)
    ensures e.MatchingCompleted? <==> k == KMatch
    ensures e.ClassificationCompleted? <==> k == KTaxonomy
    ensures e.TriagePrepared? <==> k == KTriage
  {
  }

  /** A service that finds nothing committed asks and writes the answer. */
  lemma {:induction false} AnswerIsWritten(s: State, p: Params, o: Outside)
    requires Underway(s, p, o) && Serving(s) && Answering(o)
    requires NextKind(s.exec.value) == KTriage || Latest(s.rows.ledger, NextKind(s.exec.value)) == None
    ensures var x := s.exec.value;
            var seen := x.(env := Observe(x, NextKind(x), o.snapshot, o.stalePo), looked := true);
            && Apply(s, p, LookStep(o.snapshot, o.stalePo)) == s.(exec := Some(seen))
            && Serve(s, p, o) == Commit(s.(exec := Some(seen)), o.answer(NextKind(x), Work(x), seen.env), o.newId)
            && Ready(NextKind(x), Work(seen), seen.env) && Work(seen) == Work(x)
            && Fresh(NextKind(x), o.answer(NextKind(x), Work(x), seen.env), Work(x), seen.env)
  {
    hide Inv, Kinds, Work, Latest, Observe, Unchanged, Usable, Ready, Fresh, Accepts;
    var x := s.exec.value;
    var env := Observe(x, NextKind(x), o.snapshot, o.stalePo);
    ReadyToServe(s, p, o);
    LookedWork(x.(env := env));
    hide Commit;
  }

  lemma LookedWork(x: Exec)
    ensures Work(x.(looked := true)) == Work(x)
  {
  }

  /** Writing a fresh answer succeeds and hands the evidence to the executor. */
  lemma WriteGoesOn(x: Exec, rows: Rows, answer: Event, newId: nat)
    requires |x.got| < |Kinds(x.node)| && Usable(rows, newId)
    requires Ready(NextKind(x), Work(x), x.env) && Fresh(NextKind(x), answer, Work(x), x.env)
    ensures var (after, t) := WriteEvidence(x, rows, answer, newId);
            && after.ledger in {rows.ledger, rows.ledger + [answer]}
            && after.run == rows.run && after.decisions == rows.decisions && (rows.exc.Some? ==> after.exc.Some?)
            && t.Some? && |t.value.got| == |x.got| + 1 && t.value == x.(looked := false, got := t.value.got)
  {
    hide Kinds, Work, Latest, Ready, Grounded, KindOf, StatusMove;
    FreshFacts(NextKind(x), answer, Work(x), x.env);
    hide Fresh;
    EnsureSucceeds(rows, newId);
    hide EnsureException;
  }

  lemma EnsureSucceeds(rows: Rows, newId: nat)
    requires Usable(rows, newId)
    ensures var r := EnsureException(rows, newId);
            r.Some? && r.value == rows.(exc := r.value.exc) && r.value.exc.Some?
  {
  }

  lemma {:induction false} WrittenGoesOn(s: State, p: Params, o: Outside)
    requires Underway(s, p, o) && Serving(s) && Answering(o)
    requires NextKind(s.exec.value) == KTriage || Latest(s.rows.ledger, NextKind(s.exec.value)) == None
    ensures Served(s, Serve(s, p, o))
    ensures var x := s.exec.value;
            var e := o.answer(NextKind(x), Work(x), Observe(x, NextKind(x), o.snapshot, o.stalePo));
            Serve(s, p, o).rows.ledger in {s.rows.ledger, s.rows.ledger + [e]}
  {
    hide Inv, Kinds, Work, Latest, Observe, Unchanged, Ready, Fresh, Serve, WriteEvidence, Usable, Answering;
    var x := s.exec.value;
    var seen := x.(env := Observe(x, NextKind(x), o.snapshot, o.stalePo), looked := true);
    ReadyToServe(s, p, o);
    AnswerIsWritten(s, p, o);
    WriteGoesOn(seen, s.rows, o.answer(NextKind(x), Work(x), seen.env), o.newId);
  }

  lemma {:induction false} ServeGoesOn(s: State, p: Params, o: Outside)
    requires Underway(s, p, o) && Serving(s) && Answering(o)
    ensures Served(s, Serve(s, p, o))
  {
    hide Inv, Kinds, Work, Latest, Observe, Unchanged, Usable, Ready, Fresh, Answering, Serve;
    var x := s.exec.value;
    ReadyToServe(s, p, o);
    if NextKind(x) != KTriage && Latest(s.rows.ledger, NextKind(x)).Some? {
      CommittedIsReturned(s, p, o);
    } else {
      WrittenGoesOn(s, p, o);
    }
  }

  // ---------------------------------------------------------------- the inputs stay unchanged

  lemma {:induction false} UnchangedAppend(ledger: seq<Event>, e: Event, k: Kind, o: Outside)
    requires Unchanged(ledger, o) && KindOf(e) == Some(k)
    requires k == KMatch ==> e.match_.snapshot == SnapshotSha(Shown(ledger, o.snapshot))
    requires k == KTaxonomy && e.taxonomy.input.content.OfTaxonomyRequest? ==> e.taxonomy.input.content.t.stalePo == o.stalePo
    requires k == KExtraction ==> Latest(ledger, KMatch) == None
    ensures Unchanged(ledger + [e], o)
  {
    LatestAppend(ledger, e, KMatch);
    LatestAppend(ledger, e, KTaxonomy);
    LatestAppend(ledger, e, KExtraction);
    hide Latest, SnapshotSha;
  }

  /** When extraction is still to be committed, no match is. */
  lemma {:induction false} NoMatchBeforeExtraction(s: State, p: Params, o: Outside)
    requires Underway(s, p, o) && Serving(s) && NextKind(s.exec.value) == KExtraction
    requires Latest(s.rows.ledger, KExtraction) == None
    ensures Latest(s.rows.ledger, KMatch) == None
  {
    hide CheckpointInv, ExecInv, RowsInv, TableInv, Evidences, Kinds, Latest, Unchanged, Usable, KindsDone;
    var c, x, events := s.ckpt.value, s.exec.value, Evidences(s.rows.ledger);
    NextEvidence(c, x, s.rows.ledger, events, |KindsDone(c.w, c.next)| + |x.got|);
    ExtractionFirst();
    NothingLater(c, x, events, KMatch);
    LatestEvidence(s.rows.ledger, KMatch);
  }

  lemma ExtractionFirst()
    ensures Rank(KExtraction) <= Rank(KMatch)
  {
  }

  lemma FreshTaxonomy(e: Event, w: GraphState, env: Env)
    requires Ready(KTaxonomy, w, env) && Fresh(KTaxonomy, e, w, env)
    ensures KindOf(e) == Some(KTaxonomy) && e.taxonomy.input.content.OfTaxonomyRequest?
    ensures e.taxonomy.input.content.t.stalePo == env.stalePo
  {
  }

  lemma {:induction false} AnswerUnchanged(s: State, p: Params, o: Outside, e: Event)
    requires Underway(s, p, o) && Serving(s) && Answering(o)
    requires var x := s.exec.value; e == o.answer(NextKind(x), Work(x), Observe(x, NextKind(x), o.snapshot, o.stalePo))
    requires NextKind(s.exec.value) == KTriage || Latest(s.rows.ledger, NextKind(s.exec.value)) == None
    ensures Unchanged(s.rows.ledger + [e], o)
  {
    hide Inv, Kinds, Work, Latest, Observe, Unchanged, Usable, Ready, Fresh, Accepts, Shown, Serve, Grounded;
    var x := s.exec.value;
    var k, env := NextKind(x), Observe(x, NextKind(x), o.snapshot, o.stalePo);
    AnswerIsWritten(s, p, o);
    ShownIsObserved(s, p, o);
    ReadyToServe(s, p, o);
    FreshFacts(k, e, Work(x), env);
    KindsAgree(e, k);
    if k == KTaxonomy {
      FreshTaxonomy(e, Work(x), env);
    }
    if k == KExtraction {
      NoMatchBeforeExtraction(s, p, o);
    }
    UnchangedAppend(s.rows.ledger, e, k, o);
  }

  lemma UsableStays(s: State, t: State, newId: nat)
    requires Usable(s.rows, newId) && Served(s, t)
    ensures Usable(t.rows, newId)
  {
  }

  /** After a service the run is still under way. */
  lemma {:induction false} ServeKeeps(s: State, p: Params, o: Outside)
    requires Underway(s, p, o) && Serving(s) && Answering(o) && p.retry.maxAttempts >= 1
    ensures Underway(Serve(s, p, o), p, o) && Served(s, Serve(s, p, o))
  {
    hide Inv, Kinds, Work, Latest, Observe, Unchanged, Usable, Answering, Apply, Serve;
    var x, t := s.exec.value, Serve(s, p, o);
    ServeGoesOn(s, p, o);
    UsableStays(s, t, o.newId);
    ServeKeepsInv(s, p, o);
    if NextKind(x) != KTriage && Latest(s.rows.ledger, NextKind(x)).Some? {
      CommittedIsReturned(s, p, o);
    } else {
      WrittenGoesOn(s, p, o);
      AnswerUnchanged(s, p, o, o.answer(NextKind(x), Work(x), Observe(x, NextKind(x), o.snapshot, o.stalePo)));
    }
  }

  lemma {:induction false} ServeKeepsInv(s: State, p: Params, o: Outside)
    requires Inv(s, p) && p.retry.maxAttempts >= 1
    ensures Inv(Serve(s, p, o), p)
  {
    hide Inv, Apply, Kinds, Work;
    var look := LookStep(o.snapshot, o.stalePo);
    ApplyKeepsInv(s, p, look);
    var looked := Apply(s, p, look);
    if looked.exec.Some? && looked.exec.value.looked && |looked.exec.value.got| < |Kinds(looked.exec.value.node)| {
      ApplyKeepsInv(looked, p, Answer(looked.exec.value, o));
    }
  }

  // ---------------------------------------------------------------- checkpoints

  /** The runner has returned with this checkpoint. */
  predicate Stopped(s: State) {
    && s.exec == None && s.ckpt.Some? && s.ckpt.value.w.status in {AwaitingReview, GraphCompleted, GraphRejected}
    && s.ckpt.value.w.status in s.returned
  }

  lemma SuccessorIsNearer(node: Node, w: GraphState)
    ensures Successor(node, w).Some? ==> NodesAhead(Successor(node, w).value) < NodesAhead(node)
    ensures |Kinds(node)| <= 3
  {
  }

  /** A checkpoint ends the run or starts the next node. */
  lemma {:induction false} CheckpointGoesOn(s: State, p: Params, o: Outside)
    requires Underway(s, p, o) && !Serving(s) && p.retry.maxAttempts >= 1
    ensures var t := Apply(s, p, CheckpointStep);
            && t.rows == s.rows
            && if t.exec == None then Inv(t, p) && Stopped(t) else Underway(t, p, o) && Ahead(t) < Ahead(s)
  {
    hide CheckpointInv, ExecInv, RowsInv, TableInv, Evidences, Kinds, Work, Unchanged, Usable, Finish, Successor, ValidProgress;
    hide Proof, NodesAhead;
    var c, x, events := s.ckpt.value, s.exec.value, Evidences(s.rows.ledger);
    HandBound(c, x, events);
    CheckpointKeepsInv(s, p);
    CheckpointKeeps(c, x, events);
    var w := Finish(x.node, Work(x));
    CheckpointFacts(c, x, events, Checkpoint(w, Successor(x.node, w)));
    ProofStatus(w.status);
    SuccessorIsNearer(x.node, w);
    if Successor(x.node, w).Some? {
      SuccessorIsNearer(Successor(x.node, w).value, w);
    }
  }

  // ---------------------------------------------------------------- the whole run

  lemma {:induction false} AdvanceIsRun(s: State, p: Params, o: Outside)
    ensures Advance(s, p, o) == Run(s, p, AdvanceSteps(s, p, o))
  {
    hide Apply, Work, Kinds;
    var steps := AdvanceSteps(s, p, o);
    RunTake(s, p, steps, 0);
    assert steps[..0] == [];
    if |steps| == 2 {
      RunTake(s, p, steps, 1);
      assert steps[..2] == steps;
    } else {
      assert steps[..1] == steps;
    }
  }

  lemma {:induction false} AdvanceGoesOn(s: State, p: Params, o: Outside)
    requires Underway(s, p, o) && Answering(o) && p.retry.maxAttempts >= 1
    ensures var t := Advance(s, p, o);
            && t.rows.run == s.rows.run && Ahead(t) < Ahead(s)
            && if t.exec == None then Inv(t, p) && Stopped(t) else Underway(t, p, o)
  {
    hide Inv, Kinds, Apply, Serve, Unchanged, Usable, Answering, NodesAhead, Underway, Stopped;
    StillAhead(s, p, o);
    if Serving(s) {
      ServeKeeps(s, p, o);
    } else {
      CheckpointGoesOn(s, p, o);
    }
  }

  lemma {:induction false} StillAhead(s: State, p: Params, o: Outside)
    requires Underway(s, p, o)
    ensures Ahead(s) > 0 && s.exec.Some?
  {
    hide Inv, Unchanged, Usable, Kinds;
  }

  lemma {:induction false} DriveUnfolds(s: State, p: Params, o: Outside)
    requires s.exec.Some? && Ahead(Advance(s, p, o)) < Ahead(s)
    ensures Drive(s, p, o) == Drive(Advance(s, p, o), p, o)
    ensures DriveSteps(s, p, o) == AdvanceSteps(s, p, o) + DriveSteps(Advance(s, p, o), p, o)
  {
    hide Advance, AdvanceSteps;
  }

  lemma {:induction false} DriveStops(s: State, p: Params, o: Outside)
    requires Underway(s, p, o) && Answering(o) && p.retry.maxAttempts >= 1
    ensures var t := Drive(s, p, o);
            Inv(t, p) && Stopped(t) && t == Run(s, p, DriveSteps(s, p, o)) && t.rows.run == s.rows.run
    decreases Ahead(s)
  {
    hide Inv, Advance, AdvanceSteps, Answering, Underway, Stopped, Apply;
    var t := Advance(s, p, o);
    StillAhead(s, p, o);
    AdvanceGoesOn(s, p, o);
    DriveUnfolds(s, p, o);
    AdvanceIsRun(s, p, o);
    RunConcat(s, p, AdvanceSteps(s, p, o), DriveSteps(t, p, o));
    if t.exec == None {
      DriveEnds(t, p, o);
    } else {
      DriveStops(t, p, o);
    }
  }

  lemma {:induction false} DriveEnds(s: State, p: Params, o: Outside)
    requires s.exec == None
    ensures Drive(s, p, o) == s && DriveSteps(s, p, o) == []
  {
    hide Advance, AdvanceSteps;
  }

  /** The runner's entry stops at once or is under way. */
  lemma {:induction false} EntryGoesOn(s: State, p: Params, asOf: int, o: Outside)
    requires Inv(s, p) && s.exec == None && ValidHash(p.contentHash) && p.retry.maxAttempts >= 1
    requires Unchanged(s.rows.ledger, o) && Usable(s.rows, o.newId)
    ensures var t := Apply(s, p, RunStep(asOf));
            && t.rows == s.rows && Inv(t, p)
            && if t.exec == None then Stopped(t) else Underway(t, p, o)
  {
    hide CheckpointInv, ExecInv, RowsInv, TableInv, Evidences, Unchanged, Usable, Proof, ValidHash, InitialState;
    ApplyKeepsInv(s, p, RunStep(asOf));
    if s.ckpt.Some? {
      PlaceOf(s.ckpt.value, Evidences(s.rows.ledger));
      PositionProof(s.ckpt.value.w, s.ckpt.value.next);
      ProofStatus(s.ckpt.value.w.status);
      hide Positioned;
    }
  }

  lemma PlaceOf(c: Checkpoint, events: seq<Event>)
    requires CheckpointInv(c, events)
    ensures Positioned(c.w, c.next)
  {
  }

  /** Every event of the path that led to the checkpoint was committed exactly once. */
  predicate PathOnce(s: State) {
    s.ckpt.Some? && forall k <- KindsDone(s.ckpt.value.w, s.ckpt.value.next) :: Occurrences(s.rows.ledger, k) == 1
  }

  lemma {:induction false} DoneOnce(s: State, p: Params)
    requires Inv(s, p) && s.ckpt.Some?
    ensures PathOnce(s)
  {
    hide CheckpointInv, ExecInv, RowsInv, TableInv, Evidences, Occurrences, Latest, KindsDone, Backed;
    var c := s.ckpt.value;
    forall k | k in KindsDone(c.w, c.next) ensures Occurrences(s.rows.ledger, k) == 1 {
      DoneBacked(c, Evidences(s.rows.ledger), k);
      LatestEvidence(s.rows.ledger, k);
      OccurrencesExact(s, k);
    }
  }

  lemma AgainNothing(s: State, p: Params, asOf: int)
    requires Stopped(s)
    ensures Apply(s, p, RunStep(asOf)) == s
  {
    assert s.returned + {s.ckpt.value.w.status} == s.returned;
  }

  /** The steps of one uninterrupted `run`. */
  function RunSteps(s: State, p: Params, asOf: int, o: Outside): seq<Step> {
    [RunStep(asOf)] + DriveSteps(Apply(s, p, RunStep(asOf)), p, o)
  }

  /** From every reachable state without an executor, with the ERP snapshot and the order-age signal that
  committed evidence was made from and whatever fresh answers the services give, one uninterrupted run
  returns waiting for review, completed or rejected; every event of its path is then committed exactly
  once, the run row is untouched, and running again writes nothing. */
  lemma {:induction false} RunFinishes(p: Params, steps: seq<Step>, asOf: int, o: Outside, again: int)
    requires p.retry.maxAttempts >= 1 && ValidHash(p.contentHash) && Answering(o)
    requires var s := Run(Init(), p, steps); s.exec == None && Unchanged(s.rows.ledger, o) && Usable(s.rows, o.newId)
    ensures var s := Run(Init(), p, steps);
            var t := Run(s, p, RunSteps(s, p, asOf, o));
            Stopped(t) && PathOnce(t) && t.rows.run == s.rows.run && Apply(t, p, RunStep(again)) == t
  {
    hide Run, Inv, Stopped, PathOnce, Apply, Answering, Unchanged, Usable, Drive, DriveSteps, ValidHash;
    InitInv(p);
    RunsKeepInv(Init(), p, steps);
    var s := Run(Init(), p, steps);
    RunEnds(s, p, asOf, o);
    var t := Run(s, p, RunSteps(s, p, asOf, o));
    AgainNothing(t, p, again);
  }

  lemma {:induction false} RunEnds(s: State, p: Params, asOf: int, o: Outside)
    requires Inv(s, p) && s.exec == None && ValidHash(p.contentHash) && p.retry.maxAttempts >= 1 && Answering(o)
    requires Unchanged(s.rows.ledger, o) && Usable(s.rows, o.newId)
    ensures var t := Run(s, p, RunSteps(s, p, asOf, o));
            Inv(t, p) && Stopped(t) && PathOnce(t) && t.rows.run == s.rows.run
  {
    hide Run, Inv, Stopped, PathOnce, Apply, Answering, Unchanged, Usable, Drive, DriveSteps, ValidHash, Underway;
    var entered := Apply(s, p, RunStep(asOf));
    EntryGoesOn(s, p, asOf, o);
    RunOne(s, p, RunStep(asOf));
    RunConcat(s, p, [RunStep(asOf)], DriveSteps(entered, p, o));
    if entered.exec == None {
      DriveEnds(entered, p, o);
      RunNothing(entered, p);
    } else {
      DriveStops(entered, p, o);
    }
    var t := Run(s, p, RunSteps(s, p, asOf, o));
    StoppedAt(t);
    DoneOnce(t, p);
  }

  lemma RunNothing(s: State, p: Params)
    ensures Run(s, p, []) == s
  {
  }

  lemma StoppedAt(s: State)
    requires Stopped(s)
    ensures s.ckpt.Some? && s.exec == None
  {
  }

  /** One uninterrupted attempt of the worker: claim, run, settle. */
  function AttemptSteps(s: State, p: Params, now: int, continuation: bool, asOf: int, o: Outside, later: int): seq<Step> {
    var claimed := Apply(s, p, BeginStep(now, continuation));
    var done := Run(claimed, p, RunSteps(claimed, p, asOf, o));
    [BeginStep(now, continuation)] + RunSteps(claimed, p, asOf, o)
    + if done.ckpt.Some? then [SettleStep(done.ckpt.value.w.status, later)] else []
  }

  /** So a worker that can claim the run, and is not interrupted, leaves it paused for its review or completed,
  with no failure stored. */
  lemma {:induction false} AttemptFinishes(
    p: Params, steps: seq<Step>, now: int, continuation: bool, asOf: int, o: Outside, later: int)
    requires p.retry.maxAttempts >= 1 && ValidHash(p.contentHash) && Answering(o)
    requires var s := Run(Init(), p, steps);
             && s.exec == None && Unchanged(s.rows.ledger, o) && Usable(s.rows, o.newId)
             && Worker.Begin(s.rows, p.retry, now, continuation).1.Claimed?
    ensures var s := Run(Init(), p, steps);
            var t := Run(s, p, AttemptSteps(s, p, now, continuation, asOf, o, later));
            && Stopped(t) && PathOnce(t) && t.rows.run.error == None
            && t.rows.run.status == if t.ckpt.value.w.status == AwaitingReview then Paused else Completed
  {
    hide Run, Inv, PathOnce, Answering, Unchanged, Usable, RunSteps, ValidHash, Apply, Stopped;
    InitInv(p);
    RunsKeepInv(Init(), p, steps);
    var s := Run(Init(), p, steps);
    var begin := BeginStep(now, continuation);
    var claimed := Apply(s, p, begin);
    ApplyKeepsInv(s, p, begin);
    Claims(s, p, now, continuation, o);
    RunEnds(claimed, p, asOf, o);
    var done := Run(claimed, p, RunSteps(claimed, p, asOf, o));
    StoppedAt(done);
    var settle := SettleStep(done.ckpt.value.w.status, later);
    RunConcat(s, p, [begin] + RunSteps(claimed, p, asOf, o), [settle]);
    RunConcat(s, p, [begin], RunSteps(claimed, p, asOf, o));
    RunOne(s, p, begin);
    RunOne(done, p, settle);
    RunKeepsClaims(claimed, p, RunSteps(claimed, p, asOf, o));
    Settles(done, p, later);
  }

  lemma {:induction false} Claims(s: State, p: Params, now: int, continuation: bool, o: Outside)
    requires Worker.Begin(s.rows, p.retry, now, continuation).1.Claimed?
    requires Unchanged(s.rows.ledger, o) && Usable(s.rows, o.newId)
    ensures var t := Apply(s, p, BeginStep(now, continuation));
            && t.exec == s.exec && t.claims != {} && t.rows.run.status == Running
            && Unchanged(t.rows.ledger, o) && Usable(t.rows, o.newId)
  {
    hide Unchanged;
    assert Worker.Begin(s.rows, p.retry, now, continuation).1.attempt in Apply(s, p, BeginStep(now, continuation)).claims;
  }

  lemma {:induction false} RunKeepsClaims(s: State, p: Params, steps: seq<Step>)
    ensures s.claims <= Run(s, p, steps).claims
  {
    if steps != [] {
      RunKeepsClaims(s, p, steps[..|steps| - 1]);
      hide Worker.Begin, Worker.Settle, Worker.Fail, Worker.Redrive, Submit, Look, Commit, RunEntry, ResumeEntry;
      StepKeepsClaims(Run(s, p, steps[..|steps| - 1]), p, steps[|steps| - 1]);
      hide Apply;
    }
  }

  lemma StepKeepsClaims(s: State, p: Params, step: Step)
    ensures s.claims <= Apply(s, p, step).claims
  {
    hide Worker.Begin, Worker.Settle, Worker.Fail, Worker.Redrive, Submit, ReadEvidence, WriteEvidence, Signoff, ResumePlanFor;
    hide Finish, Work, ValidProgress, Kinds, SettleReview, ByKey, ById;
  }

  lemma Settles(s: State, p: Params, later: int)
    requires Stopped(s) && PathOnce(s) && s.claims != {} && s.rows.run.status == Running
    ensures var t := Apply(s, p, SettleStep(s.ckpt.value.w.status, later));
            && Stopped(t) && PathOnce(t) && t.rows.run.error == None
            && t.rows.run.status == if t.ckpt.value.w.status == AwaitingReview then Paused else Completed
  {
    hide Occurrences, KindsDone;
  }
}
